/** The payment controller: the Express handlers as methods over the stored
    users, listings (hotels) and orders. Each call to the payment processor is
    a parameter of the handler that makes it; `None` from it means the
    processor call failed (threw). */
module StripeController {
  import opened Js
  import opened Pricing
  import opened Checkout
  import opened Onboarding
  import opened Orders

  /** A user's `stripeSession`: never set, set to `{}`, or a stored session. */
  datatype PendingSession = Absent | Cleared | Present(session: Session)

  datatype User = User(
    email: Option<string>,
    password: Option<string>,
    stripeAccountId: Option<string>,
    stripeSeller: Option<JsObject>,
    stripeSession: PendingSession)

  datatype Hotel = Hotel(title: string, price: real, postedBy: string)

  /** The redirect targets read from the process environment. */
  datatype Config = Config(redirectUrl: string, settingRedirectUrl: string, successUrl: string, cancelUrl: string)

  /** What a handler leaves the client with. `Silent`: the handler returned
      without responding, or caught and logged an error. `Unhandled`: an error
      escaped the handler, so no response is sent either. */
  datatype Response =
    | SendText(text: string)
    | SendJson(body: JsObject)
    | SendUser(user: User)
    | SendSessionId(sessionId: string)
    | SendSuccess
    | Silent
    | Unhandled

  /** The response once the account link was requested. */
  function LinkResponse(link: Option<JsObject>, email: Option<string>, stringify: JsObject -> string): Response
  {
    if link.Some? then SendText(OnboardingLink(link.value, email, stringify)) else Unhandled
  }

  /** The checkout request for listing `hotelId`, paid out to `destination`. */
  function RequestForHotel(hotelId: string, hotel: Hotel, destination: Option<string>, cfg: Config): SessionRequest
  {
    SessionRequestFor(hotelId, hotel.title, hotel.price, destination, cfg.successUrl, cfg.cancelUrl)
  }

  /** The session the reconciler gets back from the processor for `buyer`'s
      pending session: none when the buyer is unknown, has no pending session,
      has `{}` (whose id is `undefined`), or the lookup fails. */
  function RetrievePending(users: map<string, User>, buyer: string, processor: map<string, Session>): Option<Session>
  {
    if buyer !in users then None
    else match users[buyer].stripeSession
      case Absent => None
      case Cleared => None
      case Present(p) => if p.id in processor then Some(processor[p.id]) else None
  }

  /** The hand-off between the handlers through the buyer's `stripeSession`:
      once a created session is stored, the reconciler looks up exactly that
      session's id; once the pending session is cleared to `{}`, it gets
      nothing back. */
  lemma PendingHandoff(users: map<string, User>, buyer: string, u: User, s: Session, processor: map<string, Session>)
    ensures RetrievePending(users[buyer := u.(stripeSession := Present(s))], buyer, processor)
            == if s.id in processor then Some(processor[s.id]) else None
    ensures RetrievePending(users[buyer := u.(stripeSession := Cleared)], buyer, processor) == None
  {
  }

  class Marketplace {
    var users: map<string, User>
    var hotels: map<string, Hotel>
    var orders: seq<Order>

    ghost predicate Valid()
      reads this
    {
      AtMostOnePerSession(orders)
    }

    constructor (users0: map<string, User>, hotels0: map<string, Hotel>, orders0: seq<Order>)
      requires AtMostOnePerSession(orders0)
      ensures Valid()
      ensures users == users0 && hotels == hotels0 && orders == orders0
    {
      users, hotels, orders := users0, hotels0, orders0;
    }

    /** `createConnectAccount`: `newAccount` is the id of the account the
        processor would create, `saved` whether the un-awaited `user.save()`
        succeeds, `createLink` the processor's account-link endpoint. */
    method CreateConnectAccount(uid: string, newAccount: Option<string>, saved: bool,
                                createLink: LinkRequest -> Option<JsObject>, stringify: JsObject -> string, cfg: Config)
      returns (resp: Response)
      requires Valid()
      modifies this
      ensures Valid() && hotels == old(hotels) && orders == old(orders)
      ensures uid !in old(users) ==> users == old(users) && resp == Unhandled
      ensures uid in old(users) && Truthy(old(users)[uid].stripeAccountId) ==>
        && users == old(users)
        && resp == LinkResponse(createLink(OnboardingRequest(old(users)[uid].stripeAccountId, cfg.redirectUrl)),
                                old(users)[uid].email, stringify)
      ensures uid in old(users) && !Truthy(old(users)[uid].stripeAccountId) && newAccount.None? ==>
        users == old(users) && resp == Unhandled
      ensures uid in old(users) && !Truthy(old(users)[uid].stripeAccountId) && newAccount.Some? ==>
        && users == (if saved then old(users)[uid := old(users)[uid].(stripeAccountId := newAccount)] else old(users))
        && resp == LinkResponse(createLink(OnboardingRequest(newAccount, cfg.redirectUrl)), old(users)[uid].email, stringify)
    {
      if uid !in users {
        return Unhandled;
      }
      var user := users[uid];
      if !Truthy(user.stripeAccountId) {
        if newAccount.None? {
          return Unhandled;
        }
        user := user.(stripeAccountId := newAccount);
        if saved {
          users := users[uid := user];
        }
      }
      var link := createLink(OnboardingRequest(user.stripeAccountId, cfg.redirectUrl));
      resp := LinkResponse(link, user.email, stringify);
    }

    /** `getAccountStatus`: `retrieveAccount` is the processor's account
        lookup, `written` whether the `findByIdAndUpdate` succeeds. */
    method GetAccountStatus(uid: string, retrieveAccount: Option<string> -> Option<JsObject>, written: bool)
      returns (resp: Response)
      requires Valid()
      modifies this
      ensures Valid() && hotels == old(hotels) && orders == old(orders)
      ensures uid !in old(users) || retrieveAccount(old(users)[uid].stripeAccountId).None? || !written ==>
        users == old(users) && resp == Unhandled
      ensures uid in old(users) && retrieveAccount(old(users)[uid].stripeAccountId).Some? && written ==>
        && users == old(users)[uid := old(users)[uid].(stripeSeller := retrieveAccount(old(users)[uid].stripeAccountId))]
        && resp == SendUser(users[uid].(password := None))
    {
      if uid !in users {
        return Unhandled;
      }
      var account := retrieveAccount(users[uid].stripeAccountId);
      if account.None? || !written {
        return Unhandled;
      }
      users := users[uid := users[uid].(stripeSeller := account)];
      resp := SendUser(users[uid].(password := None));
    }

    /** `getAccountBalance`: a balance, or nothing when the lookup fails. */
    method GetAccountBalance(uid: string, retrieveBalance: Option<string> -> Option<JsObject>) returns (resp: Response)
      ensures resp.SendJson? <==> uid in users && retrieveBalance(users[uid].stripeAccountId).Some?
      ensures resp.SendJson? ==> resp.body == retrieveBalance(users[uid].stripeAccountId).value
      ensures !resp.SendJson? ==> resp == Silent
    {
      if uid !in users {
        return Silent;
      }
      var balance := retrieveBalance(users[uid].stripeAccountId);
      resp := if balance.Some? then SendJson(balance.value) else Silent;
    }

    /** `payoutSetting`: a login link, or nothing when the lookup fails. */
    method PayoutSetting(uid: string, createLoginLink: (Option<string>, string) -> Option<JsObject>, cfg: Config)
      returns (resp: Response)
      ensures resp.SendJson? <==>
        uid in users && createLoginLink(users[uid].stripeAccountId, cfg.settingRedirectUrl).Some?
      ensures resp.SendJson? ==> resp.body == createLoginLink(users[uid].stripeAccountId, cfg.settingRedirectUrl).value
      ensures !resp.SendJson? ==> resp == Silent
    {
      if uid !in users {
        return Silent;
      }
      var loginLink := createLoginLink(users[uid].stripeAccountId, cfg.settingRedirectUrl);
      resp := if loginLink.Some? then SendJson(loginLink.value) else Silent;
    }

    /** `stripeSessionId`: `createSession` is the processor's checkout
        endpoint, `written` whether storing the session on the buyer succeeds. */
    method StripeSessionId(buyer: string, hotelId: string, createSession: SessionRequest -> Option<Session>,
                           written: bool, cfg: Config)
      returns (resp: Response)
      requires Valid()
      modifies this
      ensures Valid() && hotels == old(hotels) && orders == old(orders)
      ensures hotelId !in hotels || hotels[hotelId].postedBy !in old(users) ==> users == old(users) && resp == Unhandled
      ensures hotelId in hotels && hotels[hotelId].postedBy in old(users) ==>
        var hotel := hotels[hotelId];
        var created := createSession(RequestForHotel(hotelId, hotel, old(users)[hotel.postedBy].stripeAccountId, cfg));
        && (created.None? || !written ==> users == old(users) && resp == Unhandled)
        && (created.Some? && written ==>
              && resp == SendSessionId(created.value.id)
              && users == if buyer in old(users)
                          then old(users)[buyer := old(users)[buyer].(stripeSession := Present(created.value))]
                          else old(users))
    {
      if hotelId !in hotels || hotels[hotelId].postedBy !in users {
        return Unhandled;
      }
      var hotel := hotels[hotelId];
      var fee := Fee(hotel.price);
      var request := RequestForHotel(hotelId, hotel, users[hotel.postedBy].stripeAccountId, cfg);
      var created := createSession(request);
      if created.None? || !written {
        return Unhandled;
      }
      var session := created.value;
      if buyer in users {
        users := users[buyer := users[buyer].(stripeSession := Present(session))];
      }
      resp := SendSessionId(session.id);
    }

    /** `stripeSuccess`: `processor` is the processor's view of every checkout
        session, by id; `orderSaved` whether saving the new order succeeds and
        `cleared` whether the following clear of the pending session does. */
    method StripeSuccess(buyer: string, hotelId: string, processor: map<string, Session>, orderSaved: bool, cleared: bool)
      returns (resp: Response)
      requires Valid()
      modifies this
      ensures Valid() && hotels == old(hotels)
      ensures resp == SendSuccess || resp == Silent
      ensures var r := RetrievePending(old(users), buyer, processor);
        r.None? || r.value.paymentStatus != "paid" ==>
          resp == Silent && users == old(users) && orders == old(orders)
      ensures var r := RetrievePending(old(users), buyer, processor);
        r.Some? && r.value.paymentStatus == "paid" && FindBySession(old(orders), r.value.id).Some? ==>
          resp == SendSuccess && users == old(users) && orders == old(orders)
      ensures var r := RetrievePending(old(users), buyer, processor);
        r.Some? && r.value.paymentStatus == "paid" && FindBySession(old(orders), r.value.id).None? ==>
          && orders == (if orderSaved then old(orders) + [Order(hotelId, r.value, buyer)] else old(orders))
          && users == (if orderSaved && cleared
                       then old(users)[buyer := old(users)[buyer].(stripeSession := Cleared)]
                       else old(users))
          && resp == (if orderSaved && cleared then SendSuccess else Silent)
      ensures users != old(users) ==> |orders| == |old(orders)| + 1
      ensures |orders| <= |old(orders)| + 1
    {
      var retrieved := RetrievePending(users, buyer, processor);
      if retrieved.None? {
        return Silent;
      }
      var session := retrieved.value;
      if session.paymentStatus != "paid" {
        return Silent;
      }
      var existing := FindBySession(orders, session.id);
      if existing.Some? {
        return SendSuccess;
      }
      if !orderSaved {
        return Silent;
      }
      AppendUnmatchedKeepsAtMostOne(orders, Order(hotelId, session, buyer));
      orders := orders + [Order(hotelId, session, buyer)];
      if !cleared {
        return Silent;
      }
      users := users[buyer := users[buyer].(stripeSession := Cleared)];
      resp := SendSuccess;
    }
  }

  /** Two onboarding requests in a row. Once a non-empty account id is stored,
      the second request creates no account, and both link requests name that
      same id. A first id whose save failed is not stored, so the second
      request creates and assigns another one. */
  method OnboardTwice(m: Marketplace, uid: string, first: Option<string>, saved1: bool, second: Option<string>, saved2: bool,
                      link1: LinkRequest -> Option<JsObject>, link2: LinkRequest -> Option<JsObject>,
                      stringify: JsObject -> string, cfg: Config)
    returns (r1: Response, r2: Response)
    requires m.Valid()
    modifies m
    ensures m.Valid() && m.orders == old(m.orders) && m.hotels == old(m.hotels)
    ensures uid in old(m.users) &&
            (Truthy(old(m.users)[uid].stripeAccountId) || (Truthy(first) && saved1)) ==>
      var id := if Truthy(old(m.users)[uid].stripeAccountId) then old(m.users)[uid].stripeAccountId else first;
      && uid in m.users
      && m.users[uid].stripeAccountId == id
      && r1 == LinkResponse(link1(OnboardingRequest(id, cfg.redirectUrl)), old(m.users)[uid].email, stringify)
      && r2 == LinkResponse(link2(OnboardingRequest(id, cfg.redirectUrl)), old(m.users)[uid].email, stringify)
    ensures uid in old(m.users) && !Truthy(old(m.users)[uid].stripeAccountId) && first.Some? && !saved1 ==>
      m.users == if second.Some? && saved2
                 then old(m.users)[uid := old(m.users)[uid].(stripeAccountId := second)]
                 else old(m.users)
  {
    r1 := m.CreateConnectAccount(uid, first, saved1, link1, stringify, cfg);
    r2 := m.CreateConnectAccount(uid, second, saved2, link2, stringify, cfg);
  }

  /** A checkout followed by a confirmation, both for the same buyer: the
      confirmation looks up the session the checkout created. An unpaid
      session yields no order; a paid one yields exactly that order. */
  method CheckoutThenConfirm(m: Marketplace, buyer: string, hotelId: string,
                             createSession: SessionRequest -> Option<Session>, written: bool,
                             processor: map<string, Session>, orderSaved: bool, cleared: bool, cfg: Config)
    returns (r1: Response, r2: Response)
    requires m.Valid()
    modifies m
    ensures m.Valid()
    ensures r1.SendSessionId? && buyer in old(m.users) ==>
      var sid := r1.sessionId;
      && (sid !in processor || processor[sid].paymentStatus != "paid" ==>
            r2 == Silent && m.orders == old(m.orders))
      && (sid in processor && processor[sid].paymentStatus == "paid"
          && FindBySession(old(m.orders), processor[sid].id).None? && orderSaved && cleared ==>
            && r2 == SendSuccess
            && m.orders == old(m.orders) + [Order(hotelId, processor[sid], buyer)]
            && buyer in m.users && m.users[buyer].stripeSession == Cleared)
  {
    r1 := m.StripeSessionId(buyer, hotelId, createSession, written, cfg);
    if r1.SendSessionId? && buyer in old(m.users) {
      ghost var hotel := m.hotels[hotelId];
      ghost var s := createSession(RequestForHotel(hotelId, hotel, old(m.users)[hotel.postedBy].stripeAccountId, cfg)).value;
      PendingHandoff(old(m.users), buyer, old(m.users)[buyer], s, processor);
    }
    r2 := m.StripeSuccess(buyer, hotelId, processor, orderSaved, cleared);
  }

  /** Two confirmations in a row against the same processor view: at most one
      order is created. If the first creates it and clears the pending
      session, the repeat sends nothing; if the clear fails, the repeat finds
      the order and reports success without creating another. */
  method ConfirmTwice(m: Marketplace, buyer: string, hotelId: string, processor: map<string, Session>,
                      orderSaved1: bool, cleared1: bool, orderSaved2: bool, cleared2: bool)
    returns (r1: Response, r2: Response)
    requires m.Valid()
    modifies m
    ensures m.Valid()
    ensures |m.orders| <= |old(m.orders)| + 1
    ensures var r := RetrievePending(old(m.users), buyer, processor);
      r.None? || r.value.paymentStatus != "paid" ==>
        r1 == Silent && r2 == Silent && m.users == old(m.users) && m.orders == old(m.orders)
    ensures var r := RetrievePending(old(m.users), buyer, processor);
      r.Some? && r.value.paymentStatus == "paid" && FindBySession(old(m.orders), r.value.id).Some? ==>
        r1 == SendSuccess && r2 == SendSuccess && m.users == old(m.users) && m.orders == old(m.orders)
    ensures var r := RetrievePending(old(m.users), buyer, processor);
      r.Some? && r.value.paymentStatus == "paid" && FindBySession(old(m.orders), r.value.id).None? && orderSaved1 ==>
        && m.orders == old(m.orders) + [Order(hotelId, r.value, buyer)]
        && (cleared1 ==> r1 == SendSuccess && r2 == Silent)
        && (!cleared1 ==> r1 == Silent && r2 == SendSuccess)
  {
    r1 := m.StripeSuccess(buyer, hotelId, processor, orderSaved1, cleared1);
    if |m.orders| == |old(m.orders)| + 1 {
      ghost var r := RetrievePending(old(m.users), buyer, processor);
      assert m.orders[|m.orders| - 1].session.id == r.value.id;
      assert FindBySession(m.orders, r.value.id).Some?;
    }
    r2 := m.StripeSuccess(buyer, hotelId, processor, orderSaved2, cleared2);
  }
}
