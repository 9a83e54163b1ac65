/**
 * The in-memory request store of index.js and its three handlers:
 * create (POST /api/request-payment), get (GET /api/payment/:id) and
 * mark-received (POST /api/payment/:id/mark-received).
 *
 * `CreateStep`, `GetStep` and `MarkReceivedStep` say what each handler does to
 * the map and what it answers; `RequestStore` is the mutable store whose
 * methods are proved to follow them; the lemmas state the lifecycle
 * promises over any sequence of calls.
 */
module PaymentStore {
  import opened Wrappers
  import opened JsValues
  import opened PaymentLink

  /** A request identifier; the handlers receive one as a route parameter. */
  type Id = string

  datatype Status = Pending | Received

  datatype PaymentRequest = PaymentRequest(
    id: Id,
    amount: JsValue,
    app: JsValue,
    account: JsValue,
    link: string,
    status: Status)

  /**
   * A handler's answer: 200 with a request, 400, 404, or the 500 Express
   * sends when a handler throws.
   */
  datatype Response = Ok(request: PaymentRequest) | BadRequest | NotFound | ServerError

  type Store = map<Id, PaymentRequest>

  /** The guard of the create handler: all three inputs truthy. */
  function HasRequiredFields(amount: JsValue, app: JsValue, account: JsValue): (ok: bool)
    ensures ok <==> amount !in FalsyValues && app !in FalsyValues && account !in FalsyValues
  {
    Truthy(amount) && Truthy(app) && Truthy(account)
  }

  /** A record the create handler can have built under key `id`. */
  ghost predicate WellFormedRecord(id: Id, r: PaymentRequest) {
    && r.id == id
    && HasRequiredFields(r.amount, r.app, r.account)
    && GeneratePaymentLink(r.app, r.amount, r.account) == Some(r.link)
  }

  /** Every record is keyed by its own id and carries the link of its own fields. */
  ghost predicate WellFormed(m: Store) {
    forall id | id in m :: WellFormedRecord(id, m[id])
  }

  /**
   * The create handler on the current map and a freshly generated id. When
   * building the link throws, the record is never stored.
   */
  function CreateStep(m: Store, id: Id, amount: JsValue, app: JsValue, account: JsValue): (r: (Store, Response))
    ensures r.1 != NotFound
    ensures !r.1.Ok? ==> r.0 == m
    ensures r.1.Ok? ==> r.1.request.id == id && r.0 == m[id := r.1.request]
  {
    if !HasRequiredFields(amount, app, account) then
      (m, BadRequest)
    else match GeneratePaymentLink(app, amount, account)
      case None => (m, ServerError)
      case Some(link) =>
        var request := PaymentRequest(id, amount, app, account, link, Pending);
        (m[id := request], Ok(request))
  }

  /** The get handler: a lookup that changes nothing. */
  function GetStep(m: Store, id: Id): (r: Response)
    ensures r.Ok? || r == NotFound
    ensures r.Ok? ==> r.request in m.Values
  {
    if id in m then Ok(m[id]) else NotFound
  }

  /** The mark-received handler: the status of an existing record becomes `Received`. */
  function MarkReceivedStep(m: Store, id: Id): (r: (Store, Response))
    ensures r.1.Ok? || r.1 == NotFound
    ensures r.0.Keys == m.Keys
    ensures r.1.Ok? ==> r.1.request.status == Received
  {
    if id !in m then
      (m, NotFound)
    else
      var request := m[id].(status := Received);
      (m[id := request], Ok(request))
  }

  /** A request the handlers receive. */
  datatype Call =
    | CreateCall(id: Id, amount: JsValue, app: JsValue, account: JsValue)
    | GetCall(id: Id)
    | MarkReceivedCall(id: Id)

  function Step(m: Store, call: Call): (Store, Response) {
    match call
    case CreateCall(id, amount, app, account) => CreateStep(m, id, amount, app, account)
    case GetCall(id) => (m, GetStep(m, id))
    case MarkReceivedCall(id) => MarkReceivedStep(m, id)
  }

  /** The map after handling `calls` in order. */
  function Run(m: Store, calls: seq<Call>): Store
    decreases |calls|
  {
    if calls == [] then m else Run(Step(m, calls[0]).0, calls[1..])
  }

  /** Every create in `calls` gets an id not yet in the map, as a v4 UUID generator provides. */
  ghost predicate FreshIds(m: Store, calls: seq<Call>)
    decreases |calls|
  {
    calls == []
    || (&& (calls[0].CreateCall? ==> calls[0].id !in m)
        && FreshIds(Step(m, calls[0]).0, calls[1..]))
  }

  /** Two versions of a record that differ at most in their status. */
  ghost predicate SameExceptStatus(before: PaymentRequest, after: PaymentRequest) {
    before.(status := after.status) == after
  }

  /** A status never goes back from `Received` to `Pending`. */
  ghost predicate StatusAdvances(before: PaymentRequest, after: PaymentRequest) {
    before.status == Received ==> after.status == Received
  }

  /** What may happen to the map between two moments: records are added, and existing ones only advance their status. */
  ghost predicate Evolves(m: Store, m': Store) {
    && m.Keys <= m'.Keys
    && forall id | id in m :: SameExceptStatus(m[id], m'[id]) && StatusAdvances(m[id], m'[id])
  }

  /**
   * Create: falsy inputs give 400, and inputs whose link cannot be built give
   * 500; both leave the map as it was. Otherwise exactly one record is added
   * under the fresh id, pending, with the link of its own fields, and every
   * other record is untouched.
   */
  lemma CreateSpec(m: Store, id: Id, amount: JsValue, app: JsValue, account: JsValue)
    requires id !in m
    ensures var (m', r) := CreateStep(m, id, amount, app, account);
      && (r == BadRequest <==> !HasRequiredFields(amount, app, account))
      && (r == ServerError <==> HasRequiredFields(amount, app, account) && LinkThrows(app, amount, account))
      && (r.Ok? <==> HasRequiredFields(amount, app, account) && !LinkThrows(app, amount, account))
      && (!r.Ok? ==> m' == m)
      && (r.Ok? ==>
            && m'.Keys == m.Keys + {id}
            && |m'| == |m| + 1
            && m'[id] == r.request
            && r.request.id == id && r.request.amount == amount
            && r.request.app == app && r.request.account == account
            && r.request.status == Pending
            && !IsNullish(account)
            && GeneratePaymentLink(app, amount, account) == Some(r.request.link)
            && forall k | k in m :: m'[k] == m[k])
  {
    var (m', r) := CreateStep(m, id, amount, app, account);
    if HasRequiredFields(amount, app, account) {
      TruthyIsNotNullish(account);
    }
    if r.Ok? {
      assert m'.Keys == m.Keys + {id};
      assert |m'.Keys| == |m.Keys| + 1;
    }
  }

  /** A zero amount is falsy and so is refused, whatever the other inputs. */
  lemma CreateRefusesZeroAmount(m: Store, id: Id, app: JsValue, account: JsValue)
    ensures CreateStep(m, id, Num("0"), app, account) == (m, BadRequest)
  {
  }

  /**
   * The amount `{"toString": 1}` is truthy, so it passes the guard, but the
   * link cannot be built from it: the handler fails with 500 and stores nothing.
   */
  lemma CreateUnconvertibleAmountStoresNothing(m: Store, id: Id)
    ensures CreateStep(m, id, Obj(map["toString" := Num("1")]), Str("upi"),
                       Obj(map["vpa" := Str("v"), "name" := Str("n")]))
         == (m, ServerError)
  {
    UnconvertibleAmountThrows(Str("upi"), Obj(map["toString" := Num("1")]),
                              Obj(map["vpa" := Str("v"), "name" := Str("n")]));
  }

  /** Inputs that pass the guard and give a link are stored, pending, under the fresh id with that link. */
  lemma CreateStoresLink(m: Store, id: Id, amount: JsValue, app: JsValue, account: JsValue, link: string)
    requires HasRequiredFields(amount, app, account)
    requires GeneratePaymentLink(app, amount, account) == Some(link)
    ensures var request := PaymentRequest(id, amount, app, account, link, Pending);
      CreateStep(m, id, amount, app, account) == (m[id := request], Ok(request))
  {
  }

  /** Get answers 404 exactly for ids not in the map, and otherwise the stored record. */
  lemma GetSpec(m: Store, id: Id)
    ensures GetStep(m, id) == NotFound <==> id !in m
    ensures id in m ==> GetStep(m, id) == Ok(m[id])
  {
  }

  /**
   * Mark-received: an unknown id gives 404 and leaves the map as it was;
   * otherwise only that record's status changes, to `Received`.
   */
  lemma MarkReceivedSpec(m: Store, id: Id)
    ensures var (m', r) := MarkReceivedStep(m, id);
      && (r == NotFound <==> id !in m)
      && (r == NotFound ==> m' == m)
      && (id in m ==>
            && r == Ok(m'[id])
            && m'.Keys == m.Keys
            && m'[id].status == Received
            && SameExceptStatus(m[id], m'[id])
            && forall k | k in m && k != id :: m'[k] == m[k])
  {
  }

  /** Marking twice is the same as marking once, and the second call still succeeds. */
  lemma MarkReceivedIdempotent(m: Store, id: Id)
    ensures var (m1, r1) := MarkReceivedStep(m, id);
      MarkReceivedStep(m1, id) == (m1, r1)
  {
    if id in m {
      var (m1, r1) := MarkReceivedStep(m, id);
      assert m1[id].(status := Received) == m1[id];
      assert m1[id := m1[id]] == m1;
    }
  }

  /** After marking, a lookup shows the request as received. */
  lemma GetAfterMarkReceived(m: Store, id: Id)
    requires id in m
    ensures GetStep(MarkReceivedStep(m, id).0, id).Ok?
    ensures GetStep(MarkReceivedStep(m, id).0, id).request.status == Received
  {
  }

  /** Whether a record is well formed does not depend on its status. */
  lemma WellFormedIgnoresStatus(id: Id, r: PaymentRequest, status: Status)
    requires WellFormedRecord(id, r)
    ensures WellFormedRecord(id, r.(status := status))
  {
    var r' := r.(status := status);
    assert r'.id == r.id && r'.amount == r.amount && r'.app == r.app;
    assert r'.account == r.account && r'.link == r.link;
  }

  lemma CreateStepEvolves(m: Store, id: Id, amount: JsValue, app: JsValue, account: JsValue)
    requires WellFormed(m)
    requires id !in m
    ensures WellFormed(CreateStep(m, id, amount, app, account).0)
    ensures Evolves(m, CreateStep(m, id, amount, app, account).0)
  {
    var (m', r) := CreateStep(m, id, amount, app, account);
    if r.Ok? {
      assert m' == m[id := r.request];
      assert WellFormedRecord(id, r.request);
      forall k | k in m' ensures WellFormedRecord(k, m'[k]) {
        if k != id {
          assert m'[k] == m[k];
        }
      }
    }
  }

  lemma MarkReceivedStepEvolves(m: Store, id: Id)
    requires WellFormed(m)
    ensures WellFormed(MarkReceivedStep(m, id).0)
    ensures Evolves(m, MarkReceivedStep(m, id).0)
  {
    var m' := MarkReceivedStep(m, id).0;
    forall k | k in m' ensures WellFormedRecord(k, m'[k]) {
      assert WellFormedRecord(k, m[k]);
      if k == id {
        WellFormedIgnoresStatus(k, m[k], Received);
      }
    }
  }

  /** One handled call keeps the map well formed and only lets it evolve. */
  lemma StepEvolves(m: Store, call: Call)
    requires WellFormed(m)
    requires call.CreateCall? ==> call.id !in m
    ensures WellFormed(Step(m, call).0)
    ensures Evolves(m, Step(m, call).0)
  {
    match call
    case CreateCall(id, amount, app, account) => CreateStepEvolves(m, id, amount, app, account);
    case GetCall(_) =>
    case MarkReceivedCall(id) => MarkReceivedStepEvolves(m, id);
  }

  lemma EvolvesTransitive(m1: Store, m2: Store, m3: Store)
    requires Evolves(m1, m2) && Evolves(m2, m3)
    ensures Evolves(m1, m3)
  {
    forall id | id in m1 ensures SameExceptStatus(m1[id], m3[id]) && StatusAdvances(m1[id], m3[id]) {
      assert id in m2;
    }
  }

  /**
   * Over any sequence of calls with fresh create ids, the map stays well
   * formed, no record disappears, no field but the status ever changes, and
   * no status goes back from `Received`.
   */
  lemma {:induction false} RunEvolves(m: Store, calls: seq<Call>)
    requires WellFormed(m)
    requires FreshIds(m, calls)
    ensures WellFormed(Run(m, calls))
    ensures Evolves(m, Run(m, calls))
    decreases |calls|
  {
    if calls != [] {
      var m1 := Step(m, calls[0]).0;
      StepEvolves(m, calls[0]);
      RunEvolves(m1, calls[1..]);
      EvolvesTransitive(m, m1, Run(m1, calls[1..]));
    }
  }

  /**
   * A lookup after any later calls answers with the record create returned,
   * save for its status.
   */
  lemma GetAfterCreateAndRun(m: Store, id: Id, amount: JsValue, app: JsValue, account: JsValue, calls: seq<Call>)
    requires WellFormed(m)
    requires id !in m
    requires CreateStep(m, id, amount, app, account).1.Ok?
    requires FreshIds(CreateStep(m, id, amount, app, account).0, calls)
    ensures var created := CreateStep(m, id, amount, app, account);
      var found := GetStep(Run(created.0, calls), id);
      found.Ok? && SameExceptStatus(created.1.request, found.request)
  {
    var created := CreateStep(m, id, amount, app, account);
    CreateStepEvolves(m, id, amount, app, account);
    RunEvolves(created.0, calls);
  }

  /**
   * Two successful creates, the second on the map the first left, answer with
   * different ids. The ids differ only because the second one is fresh: this
   * re-derives what the v4 UUID generator is assumed to provide.
   */
  lemma CreatesGetDistinctIds(
    m: Store,
    id1: Id, amount1: JsValue, app1: JsValue, account1: JsValue,
    id2: Id, amount2: JsValue, app2: JsValue, account2: JsValue)
    requires id1 !in m
    requires CreateStep(m, id1, amount1, app1, account1).1.Ok?
    requires id2 !in CreateStep(m, id1, amount1, app1, account1).0
    requires CreateStep(CreateStep(m, id1, amount1, app1, account1).0, id2, amount2, app2, account2).1.Ok?
    ensures var (m1, r1) := CreateStep(m, id1, amount1, app1, account1);
      var (m2, r2) := CreateStep(m1, id2, amount2, app2, account2);
      && r1.request.id != r2.request.id
      && m2[r1.request.id] == r1.request
      && m2[r2.request.id] == r2.request
  {
  }

  /**
   * The test the handlers apply at index.js:46 and index.js:56, as written:
   * `paymentRequests` is a plain object, so `paymentRequests[id]` also finds
   * the properties every object inherits.
   */
  const InheritedNames: set<Id> := {
    "constructor", "__proto__", "toString", "toLocaleString", "valueOf",
    "hasOwnProperty", "isPrototypeOf", "propertyIsEnumerable",
    "__defineGetter__", "__defineSetter__", "__lookupGetter__", "__lookupSetter__"}

  /** Whether `paymentRequests[id]` is truthy, which is what lets the handlers past their 404 branch. */
  function SourceLookupFinds(m: Store, id: Id): (found: bool)
    ensures id in m ==> found
    ensures id in InheritedNames ==> found
    ensures found ==> id in m || id in InheritedNames
  {
    id in m || id in InheritedNames
  }

  /**
   * As written, a lookup of an inherited name succeeds on an empty store,
   * where the corrected lookup of `GetStep` answers 404.
   */
  lemma InheritedNameFoundAsWritten()
    ensures SourceLookupFinds(map[], "constructor")
    ensures GetStep(map[], "constructor") == NotFound
  {
  }

  /** The store object the handlers share. */
  class RequestStore {
    var requests: Store

    ghost predicate Valid()
      reads this
    {
      WellFormed(requests)
    }

    /** The empty store created at startup. */
    constructor ()
      ensures Valid()
      ensures requests == map[]
    {
      requests := map[];
    }

    /** POST /api/request-payment with `id` the value `uuidv4()` returned. */
    method CreateRequest(id: Id, amount: JsValue, app: JsValue, account: JsValue) returns (r: Response)
      requires Valid()
      requires id !in requests
      modifies this
      ensures Valid()
      ensures (requests, r) == CreateStep(old(requests), id, amount, app, account)
      ensures Evolves(old(requests), requests)
    {
      if !Truthy(amount) || !Truthy(app) || !Truthy(account) {
        return BadRequest;
      }
      var link := GeneratePaymentLink(app, amount, account);
      if link.None? {
        return ServerError;
      }
      var request := PaymentRequest(id, amount, app, account, link.value, Pending);
      requests := requests[id := request];
      r := Ok(request);
      CreateStepEvolves(old(requests), id, amount, app, account);
    }

    /** GET /api/payment/:id. */
    method GetRequest(id: Id) returns (r: Response)
      ensures r == NotFound <==> id !in requests
      ensures id in requests ==> r == Ok(requests[id])
    {
      if id !in requests {
        return NotFound;
      }
      r := Ok(requests[id]);
    }

    /** POST /api/payment/:id/mark-received. */
    method MarkReceived(id: Id) returns (r: Response)
      requires Valid()
      modifies this
      ensures Valid()
      ensures (requests, r) == MarkReceivedStep(old(requests), id)
      ensures Evolves(old(requests), requests)
    {
      if id !in requests {
        return NotFound;
      }
      var request := requests[id].(status := Received);
      requests := requests[id := request];
      r := Ok(request);
      MarkReceivedStepEvolves(old(requests), id);
    }
  }

  /**
   * The end-to-end scenario: a UPI request for 250 to `x@y`, named
   * `Alice Co`, is created with the link `upi://pay?pa=x@y&pn=Alice%20Co&am=250`,
   * then marked received twice and looked up.
   */
  method Scenario(id: Id, amount: JsValue, app: JsValue, account: JsValue)
    requires amount == Num("250") && app == Str("upi")
    requires account.Obj? && account.fields == map["vpa" := Str("x@y"), "name" := Str("Alice Co")]
  {
    var link := UpiPrefix + "x@y" + "&pn=" + ("Alice" + "%20" + "Co") + "&am=" + "250";
    assert GeneratePaymentLink(app, amount, account) == Some(link) by {
      ExampleAliceCoLink(account);
    }
    var store, created := CreateInNewStore(id, amount, app, account, link);
    assert created == PaymentRequest(id, amount, app, account, link, Pending);
    MarkTwiceThenLookUp(store, id, created);
  }

  /** The first step of the scenario, for any create whose link generation succeeds. */
  method CreateInNewStore(id: Id, amount: JsValue, app: JsValue, account: JsValue, link: string)
    returns (store: RequestStore, created: PaymentRequest)
    requires HasRequiredFields(amount, app, account)
    requires GeneratePaymentLink(app, amount, account) == Some(link)
    ensures fresh(store) && store.Valid() && store.requests == map[id := created]
    ensures created == PaymentRequest(id, amount, app, account, link, Pending)
  {
    CreateStoresLink(map[], id, amount, app, account, link);
    store := new RequestStore();
    var r := store.CreateRequest(id, amount, app, account);
    created := r.request;
  }

  /** The rest of the scenario, for any pending request the store holds. */
  method MarkTwiceThenLookUp(store: RequestStore, id: Id, created: PaymentRequest)
    requires store.Valid()
    requires id in store.requests && store.requests[id] == created
    requires created.status == Pending
    modifies store
  {
    var marked := store.MarkReceived(id);
    assert marked.Ok? && marked.request.status == Received;
    var again := store.MarkReceived(id);
    assert again == marked;
    var found := store.GetRequest(id);
    assert found == marked;
    assert SameExceptStatus(created, found.request);
  }
}
