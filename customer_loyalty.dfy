/**
 * The check-in accrual and the loyalty query, over an in-memory copy of
 * the four backend tables. Each backend call of the check-in may fail; the
 * call that fails (if any) is a parameter, so that every error path of the
 * sequence, and what each one leaves behind, is part of the model.
 */
module CustomerLoyalty {
  import opened Wrappers
  import opened Businesses

  type Id = nat

  datatype Customer = Customer(id: Id, phone: string)

  datatype LoyaltyRecord = LoyaltyRecord(
    id: Id,
    customerId: Id,
    businessId: string,
    currentVisits: int,
    currentPoints: int,
    totalVisits: int,
    totalPoints: int)

  datatype Transaction = Transaction(
    customerId: Id,
    businessId: string,
    kind: string,
    pointsEarned: int,
    visitsAdded: int)

  /**
   * The tables: businesses by id, customers by phone, loyalty records by
   * (customer id, business id), the transaction log, and the next free row id.
   */
  datatype Tables = Tables(
    businesses: map<string, Business>,
    customers: map<string, Customer>,
    loyalty: map<(Id, string), LoyaltyRecord>,
    transactions: seq<Transaction>,
    nextId: Id)

  /** The backend calls of a check-in, in the order they are made. */
  datatype Call = FindCustomer | InsertCustomer | LookupBusiness | FindLoyalty | WriteLoyalty | InsertTransaction

  datatype CheckInError = BusinessNotFound | BackendError(call: Call)

  datatype Outcome = Success | Failure(error: CheckInError)

  const CheckInKind := "check-in"
  const VisitsPerCheckIn := 1
  const PointsPerCheckIn := 50

  /** `pointsToAdd`: 50 for a "Points-based" business, 0 for every other loyalty type. */
  function PointsToAdd(loyaltyType: string): int
  {
    if loyaltyType == PointsBased then PointsPerCheckIn else 0
  }

  /** A record with every counter raised by one check-in's amounts. */
  function Accrue(r: LoyaltyRecord, visits: int, points: int): LoyaltyRecord
  {
    r.(currentVisits := r.currentVisits + visits, currentPoints := r.currentPoints + points,
       totalVisits := r.totalVisits + visits, totalPoints := r.totalPoints + points)
  }

  /** Customers are stored under their own phone, with distinct ids below the next free id. */
  ghost predicate ValidCustomers(t: Tables)
  {
    (forall phone :: phone in t.customers ==>
       t.customers[phone].phone == phone && t.customers[phone].id < t.nextId)
    && (forall p, q :: p in t.customers && q in t.customers && p != q ==>
          t.customers[p].id != t.customers[q].id)
  }

  /** A loyalty record stored under key `k`: keys match, counters are non-negative, totals cover the current counters. */
  ghost predicate ValidRecord(r: LoyaltyRecord, k: (Id, string), t: Tables)
  {
    r.customerId == k.0 && r.businessId == k.1
    && r.id < t.nextId && k.0 < t.nextId && k.1 in t.businesses
    && 0 <= r.currentVisits <= r.totalVisits && 0 <= r.currentPoints <= r.totalPoints
  }

  ghost predicate ValidLoyalty(t: Tables)
  {
    (forall k :: k in t.loyalty ==> ValidRecord(t.loyalty[k], k, t))
    && (forall k, k' :: k in t.loyalty && k' in t.loyalty && k != k' ==>
          t.loyalty[k].id != t.loyalty[k'].id)
  }

  /** Every logged transaction, of whatever kind, names an allocated customer id and a known business. */
  ghost predicate ValidTransactions(t: Tables)
  {
    forall i :: 0 <= i < |t.transactions| ==>
      t.transactions[i].customerId < t.nextId && t.transactions[i].businessId in t.businesses
  }

  /** The table invariant the check-in keeps. */
  ghost predicate Consistent(t: Tables)
  {
    ValidCustomers(t) && ValidLoyalty(t) && ValidTransactions(t)
  }

  /** Step one (find or create the customer): the tables with a customer for `phone`. */
  function WithCustomer(t: Tables, phone: string): Tables
  {
    if phone in t.customers then t
    else t.(customers := t.customers[phone := Customer(t.nextId, phone)], nextId := t.nextId + 1)
  }

  /** The loyalty write: raise the pair's record, or insert it holding the amounts. */
  function AccrueAt(t: Tables, customerId: Id, businessId: string, points: int): Tables
  {
    var key := (customerId, businessId);
    if key in t.loyalty then
      t.(loyalty := t.loyalty[key := Accrue(t.loyalty[key], VisitsPerCheckIn, points)])
    else
      t.(loyalty := t.loyalty[key := LoyaltyRecord(t.nextId, customerId, businessId,
                                                   VisitsPerCheckIn, points, VisitsPerCheckIn, points)],
         nextId := t.nextId + 1)
  }

  /** The transaction insert. */
  function Logged(t: Tables, tx: Transaction): Tables
  {
    t.(transactions := t.transactions + [tx])
  }

  /**
   * `useCheckIn`'s mutation on the tables: find or create the customer,
   * look up the business, find or create the loyalty record and raise its
   * counters, then append a transaction. `failing` names the backend call
   * that fails, if any; calls the run does not reach cannot fail.
   */
  function CheckInSpec(t: Tables, phone: string, businessId: string, failing: Option<Call>): (Tables, Outcome)
  {
    if failing == Some(FindCustomer) then (t, Failure(BackendError(FindCustomer)))
    else if phone !in t.customers && failing == Some(InsertCustomer) then (t, Failure(BackendError(InsertCustomer)))
    else
      var t1 := WithCustomer(t, phone);
      var customerId := t1.customers[phone].id;
      if failing == Some(LookupBusiness) then (t1, Failure(BackendError(LookupBusiness)))
      else if businessId !in t1.businesses then (t1, Failure(BusinessNotFound))
      else if failing == Some(FindLoyalty) then (t1, Failure(BackendError(FindLoyalty)))
      else if failing == Some(WriteLoyalty) then (t1, Failure(BackendError(WriteLoyalty)))
      else
        var points := PointsToAdd(t1.businesses[businessId].loyaltyType);
        var t2 := AccrueAt(t1, customerId, businessId, points);
        if failing == Some(InsertTransaction) then (t2, Failure(BackendError(InsertTransaction)))
        else (Logged(t2, Transaction(customerId, businessId, CheckInKind, points, VisitsPerCheckIn)), Success)
  }

  /** `useCustomerLoyalty`'s query: the loyalty records of the customer with this phone. */
  function LoyaltyOf(t: Tables, phone: string): set<LoyaltyRecord>
  {
    if phone == "" then {}
    else set r | r in t.loyalty.Values && phone in t.customers && r.customerId == t.customers[phone].id
  }

  /** The customer a check-in works with, once the first step has passed. */
  predicate PassesCustomerStep(t: Tables, phone: string, failing: Option<Call>)
  {
    failing != Some(FindCustomer) && !(phone !in t.customers && failing == Some(InsertCustomer))
  }

  /** The check-in reaches its loyalty write and its transaction insert. */
  predicate ReachesLoyaltyWrite(t: Tables, phone: string, businessId: string, failing: Option<Call>)
  {
    PassesCustomerStep(t, phone, failing) && businessId in t.businesses
    && failing != Some(LookupBusiness) && failing != Some(FindLoyalty) && failing != Some(WriteLoyalty)
  }

  /** The id the check-in's customer has: the existing one's, or the next free id. */
  function CustomerIdFor(t: Tables, phone: string): Id
  {
    if phone in t.customers then t.customers[phone].id else t.nextId
  }

  lemma NewIdIsFresh(t: Tables)
    requires Consistent(t)
    ensures forall phone :: phone in t.customers ==> t.customers[phone].id != t.nextId
    ensures forall k :: k in t.loyalty ==> k.0 != t.nextId && t.loyalty[k].id != t.nextId
  {
  }

  lemma IdsBelowNext(t: Tables)
    requires Consistent(t)
    ensures forall k :: k in t.loyalty ==> t.loyalty[k].id < t.nextId
  {
    forall k | k in t.loyalty ensures t.loyalty[k].id < t.nextId {
      assert ValidRecord(t.loyalty[k], k, t);
    }
  }

  /** Past its first step, a check-in's customers are those of `WithCustomer`. */
  lemma CustomersAfter(t: Tables, phone: string, businessId: string, failing: Option<Call>)
    requires PassesCustomerStep(t, phone, failing)
    ensures CheckInSpec(t, phone, businessId, failing).0.customers == WithCustomer(t, phone).customers
  {
  }

  /** A check-in that reaches its loyalty write leaves the loyalty table of `AccrueAt` on the first stage. */
  lemma LoyaltyAfter(t: Tables, phone: string, businessId: string, failing: Option<Call>)
    requires ReachesLoyaltyWrite(t, phone, businessId, failing)
    ensures var t' := CheckInSpec(t, phone, businessId, failing).0;
            var t1 := WithCustomer(t, phone);
            var t2 := AccrueAt(t1, CustomerIdFor(t, phone), businessId, PointsToAdd(t.businesses[businessId].loyaltyType));
            t1.loyalty == t.loyalty && t1.businesses == t.businesses && t.nextId <= t1.nextId
            && t'.loyalty == t2.loyalty && t'.nextId == t2.nextId && t'.businesses == t.businesses
  {
  }

  /** A check-in that stops before its loyalty write leaves the loyalty table and the businesses as they were. */
  lemma LoyaltyBeforeWrite(t: Tables, phone: string, businessId: string, failing: Option<Call>)
    requires !ReachesLoyaltyWrite(t, phone, businessId, failing)
    ensures var t' := CheckInSpec(t, phone, businessId, failing).0;
            t'.loyalty == t.loyalty && t'.businesses == t.businesses
  {
  }

  lemma AccrueAtNeverDecreases(t: Tables, customerId: Id, businessId: string, points: int)
    requires points >= 0
    ensures var t' := AccrueAt(t, customerId, businessId, points);
            forall k :: k in t.loyalty ==>
              k in t'.loyalty
              && t'.loyalty[k].id == t.loyalty[k].id
              && t'.loyalty[k].currentVisits >= t.loyalty[k].currentVisits
              && t'.loyalty[k].currentPoints >= t.loyalty[k].currentPoints
              && t'.loyalty[k].totalVisits >= t.loyalty[k].totalVisits
              && t'.loyalty[k].totalPoints >= t.loyalty[k].totalPoints
  {
  }

  lemma WithCustomerConsistent(t: Tables, phone: string)
    requires Consistent(t)
    ensures var t1 := WithCustomer(t, phone);
            Consistent(t1) && phone in t1.customers && t1.customers[phone].id == CustomerIdFor(t, phone)
            && t1.nextId >= t.nextId
  {
    var t1 := WithCustomer(t, phone);
    assert ValidLoyalty(t1) by {
      forall k | k in t1.loyalty ensures ValidRecord(t1.loyalty[k], k, t1) {
        assert ValidRecord(t.loyalty[k], k, t);
      }
    }
  }

  lemma AccrueAtConsistent(t: Tables, customerId: Id, businessId: string, points: int)
    requires Consistent(t) && customerId < t.nextId && businessId in t.businesses && points >= 0
    ensures Consistent(AccrueAt(t, customerId, businessId, points))
  {
    var key := (customerId, businessId);
    var t2 := AccrueAt(t, customerId, businessId, points);
    if key !in t.loyalty {
      NewIdIsFresh(t);
      forall k | k in t2.loyalty ensures ValidRecord(t2.loyalty[k], k, t2) {
        if k != key {
          assert ValidRecord(t.loyalty[k], k, t);
        }
      }
    } else {
      assert ValidRecord(t.loyalty[key], key, t);
    }
  }

  lemma LoggedConsistent(t: Tables, tx: Transaction)
    requires Consistent(t)
    requires tx.customerId < t.nextId && tx.businessId in t.businesses
    ensures Consistent(Logged(t, tx))
  {
    var t' := Logged(t, tx);
    assert ValidLoyalty(t') by {
      forall k | k in t'.loyalty ensures ValidRecord(t'.loyalty[k], k, t') {
        assert ValidRecord(t.loyalty[k], k, t);
      }
    }
  }

  /** The table invariant holds after every check-in, whatever fails. */
  lemma CheckInKeepsConsistent(t: Tables, phone: string, businessId: string, failing: Option<Call>)
    requires Consistent(t)
    ensures Consistent(CheckInSpec(t, phone, businessId, failing).0)
  {
    var t' := CheckInSpec(t, phone, businessId, failing).0;
    if !PassesCustomerStep(t, phone, failing) {
      assert t' == t;
    } else {
      WithCustomerConsistent(t, phone);
      var t1 := WithCustomer(t, phone);
      if !ReachesLoyaltyWrite(t, phone, businessId, failing) {
        assert t' == t1;
      } else {
        var customerId := t1.customers[phone].id;
        var points := PointsToAdd(t1.businesses[businessId].loyaltyType);
        var t2 := AccrueAt(t1, customerId, businessId, points);
        AccrueAtConsistent(t1, customerId, businessId, points);
        if failing == Some(InsertTransaction) {
          assert t' == t2;
        } else {
          var tx := Transaction(customerId, businessId, CheckInKind, points, VisitsPerCheckIn);
          LoggedConsistent(t2, tx);
          assert t' == Logged(t2, tx);
        }
      }
    }
  }

  /** An existing customer is reused; otherwise exactly one customer with that phone is created. */
  lemma CheckInFindsOrCreatesCustomer(t: Tables, phone: string, businessId: string, failing: Option<Call>)
    requires Consistent(t) && PassesCustomerStep(t, phone, failing)
    ensures var t' := CheckInSpec(t, phone, businessId, failing).0;
            phone in t'.customers && t'.customers[phone].id == CustomerIdFor(t, phone)
            && (phone in t.customers ==> t'.customers == t.customers)
            && (phone !in t.customers ==>
                  t'.customers == t.customers[phone := Customer(t.nextId, phone)]
                  && |t'.customers| == |t.customers| + 1)
            && (forall p :: p in t.customers && p != phone ==> t'.customers[p].id != CustomerIdFor(t, phone))
  {
    NewIdIsFresh(t);
    CustomersAfter(t, phone, businessId, failing);
  }

  /** A check-in adds one visit and, at a "Points-based" business only, 50 points. */
  lemma CheckInAmounts(t: Tables, phone: string, businessId: string)
    requires Consistent(t) && businessId in t.businesses
    ensures var (t', outcome) := CheckInSpec(t, phone, businessId, None);
            var tx := t'.transactions[|t'.transactions| - 1];
            outcome == Success && |t'.transactions| == |t.transactions| + 1
            && tx.visitsAdded == 1
            && (tx.pointsEarned == 50 <==> t.businesses[businessId].loyaltyType == PointsBased)
            && (tx.pointsEarned == 0 <==> t.businesses[businessId].loyaltyType != PointsBased)
  {
  }

  /** A first check-in for a (customer, business) pair inserts one record holding the amounts. */
  lemma FirstCheckInCreatesRecord(t: Tables, phone: string, businessId: string, failing: Option<Call>)
    requires Consistent(t) && ReachesLoyaltyWrite(t, phone, businessId, failing)
    requires (CustomerIdFor(t, phone), businessId) !in t.loyalty
    ensures var t' := CheckInSpec(t, phone, businessId, failing).0;
            var key := (CustomerIdFor(t, phone), businessId);
            var points := PointsToAdd(t.businesses[businessId].loyaltyType);
            t'.loyalty.Keys == t.loyalty.Keys + {key}
            && (forall k :: k in t.loyalty ==> t'.loyalty[k] == t.loyalty[k])
            && t'.loyalty[key].customerId == key.0 && t'.loyalty[key].businessId == businessId
            && t'.loyalty[key].currentVisits == 1 && t'.loyalty[key].totalVisits == 1
            && t'.loyalty[key].currentPoints == points && t'.loyalty[key].totalPoints == points
            && (forall k :: k in t.loyalty ==> t'.loyalty[key].id != t.loyalty[k].id)
  {
    LoyaltyAfter(t, phone, businessId, failing);
    IdsBelowNext(t);
  }

  /** A repeat check-in raises all four counters of its own record by the amounts, and touches nothing else. */
  lemma RepeatCheckInRaisesCounters(t: Tables, phone: string, businessId: string, failing: Option<Call>)
    requires Consistent(t) && ReachesLoyaltyWrite(t, phone, businessId, failing)
    requires (CustomerIdFor(t, phone), businessId) in t.loyalty
    ensures var t' := CheckInSpec(t, phone, businessId, failing).0;
            var key := (CustomerIdFor(t, phone), businessId);
            var points := PointsToAdd(t.businesses[businessId].loyaltyType);
            var r, r' := t.loyalty[key], t'.loyalty[key];
            t'.loyalty.Keys == t.loyalty.Keys && t'.nextId == t.nextId
            && (forall k :: k in t.loyalty && k != key ==> t'.loyalty[k] == t.loyalty[k])
            && r'.id == r.id && r'.customerId == r.customerId && r'.businessId == r.businessId
            && r'.currentVisits == r.currentVisits + 1 && r'.totalVisits == r.totalVisits + 1
            && r'.currentPoints == r.currentPoints + points && r'.totalPoints == r.totalPoints + points
  {
    LoyaltyAfter(t, phone, businessId, failing);
  }

  /** A successful check-in appends exactly one "check-in" transaction with its customer, business and amounts. */
  lemma SuccessAppendsTransaction(t: Tables, phone: string, businessId: string, failing: Option<Call>)
    requires Consistent(t)
    ensures var (t', outcome) := CheckInSpec(t, phone, businessId, failing);
            outcome == Success <==> ReachesLoyaltyWrite(t, phone, businessId, failing) && failing != Some(InsertTransaction)
    ensures var (t', outcome) := CheckInSpec(t, phone, businessId, failing);
            outcome == Success ==>
              t'.transactions == t.transactions +
                [Transaction(CustomerIdFor(t, phone), businessId, CheckInKind,
                             PointsToAdd(t.businesses[businessId].loyaltyType), VisitsPerCheckIn)]
    ensures var (t', outcome) := CheckInSpec(t, phone, businessId, failing);
            outcome.Failure? ==> t'.transactions == t.transactions
  {
  }

  /** No loyalty record ever disappears or loses a visit or a point, and the businesses are never changed. */
  lemma CountersNeverDecrease(t: Tables, phone: string, businessId: string, failing: Option<Call>)
    ensures var t' := CheckInSpec(t, phone, businessId, failing).0;
            t'.businesses == t.businesses
            && forall k :: k in t.loyalty ==>
                 k in t'.loyalty
                 && t'.loyalty[k].id == t.loyalty[k].id
                 && t'.loyalty[k].currentVisits >= t.loyalty[k].currentVisits
                 && t'.loyalty[k].currentPoints >= t.loyalty[k].currentPoints
                 && t'.loyalty[k].totalVisits >= t.loyalty[k].totalVisits
                 && t'.loyalty[k].totalPoints >= t.loyalty[k].totalPoints
  {
    if ReachesLoyaltyWrite(t, phone, businessId, failing) {
      LoyaltyAfter(t, phone, businessId, failing);
      AccrueAtNeverDecreases(WithCustomer(t, phone), CustomerIdFor(t, phone), businessId,
                             PointsToAdd(t.businesses[businessId].loyaltyType));
    } else {
      LoyaltyBeforeWrite(t, phone, businessId, failing);
    }
  }

  /**
   * A missing business fails the check-in with the loyalty records and
   * transactions untouched, but the customer created by its first step stays.
   */
  lemma MissingBusinessKeepsNewCustomer(t: Tables, phone: string, businessId: string, failing: Option<Call>)
    requires Consistent(t) && PassesCustomerStep(t, phone, failing)
    requires businessId !in t.businesses && failing != Some(LookupBusiness)
    ensures var (t', outcome) := CheckInSpec(t, phone, businessId, failing);
            outcome == Failure(BusinessNotFound)
            && t'.loyalty == t.loyalty && t'.transactions == t.transactions
            && phone in t'.customers
            && (phone !in t.customers ==> |t'.customers| == |t.customers| + 1)
  {
  }

  /**
   * A failing transaction insert leaves the loyalty write in place: the
   * counters are raised although no transaction records it.
   */
  lemma FailedTransactionKeepsAccrual(t: Tables, phone: string, businessId: string)
    requires Consistent(t) && ReachesLoyaltyWrite(t, phone, businessId, Some(InsertTransaction))
    ensures var (t', outcome) := CheckInSpec(t, phone, businessId, Some(InsertTransaction));
            var (t'', _) := CheckInSpec(t, phone, businessId, None);
            outcome == Failure(BackendError(InsertTransaction))
            && t'.transactions == t.transactions
            && t'.loyalty == t''.loyalty && t'.loyalty != t.loyalty
  {
    var key := (CustomerIdFor(t, phone), businessId);
    var t' := CheckInSpec(t, phone, businessId, Some(InsertTransaction)).0;
    if key in t.loyalty {
      assert t'.loyalty[key].totalVisits != t.loyalty[key].totalVisits;
    } else {
      assert key in t'.loyalty;
    }
  }

  /** The first check-in of a new phone creates one customer, one loyalty record and one transaction. */
  lemma FirstCheckInCreatesOneOfEach(t: Tables, phone: string, businessId: string)
    requires Consistent(t) && phone !in t.customers && businessId in t.businesses
    ensures var (t', outcome) := CheckInSpec(t, phone, businessId, None);
            outcome == Success
            && |t'.customers| == |t.customers| + 1
            && |t'.loyalty| == |t.loyalty| + 1
            && |t'.transactions| == |t.transactions| + 1
  {
    NewIdIsFresh(t);
    CustomersAfter(t, phone, businessId, None);
    FirstCheckInCreatesRecord(t, phone, businessId, None);
    SuccessAppendsTransaction(t, phone, businessId, None);
  }

  /** The loyalty query for an empty phone is empty, whatever the tables hold. */
  lemma EmptyPhoneQueriesNothing(t: Tables, u: Tables)
    ensures LoyaltyOf(t, "") == LoyaltyOf(u, "") == {}
  {
  }

  /** After a successful check-in, the query for the same phone lists the pair's record. */
  lemma CheckInShowsInQuery(t: Tables, phone: string, businessId: string)
    requires Consistent(t) && businessId in t.businesses && phone != ""
    ensures var t' := CheckInStep(t, phone, businessId);
            HasRecord(t', phone, businessId) && RecordOf(t', phone, businessId) in LoyaltyOf(t', phone)
  {
    NextCheckIn(t, phone, businessId);
  }

  /** A check-in that finds every backend call working. */
  function CheckInStep(t: Tables, phone: string, businessId: string): Tables
  {
    CheckInSpec(t, phone, businessId, None).0
  }

  /** `n` successful check-ins in a row by the same phone at the same business. */
  function CheckInTimes(t: Tables, phone: string, businessId: string, n: nat): Tables
    decreases n
  {
    if n == 0 then t else CheckInTimes(CheckInStep(t, phone, businessId), phone, businessId, n - 1)
  }

  /** The customer with `phone` has a loyalty record at `businessId`. */
  predicate HasRecord(t: Tables, phone: string, businessId: string)
  {
    phone in t.customers && (t.customers[phone].id, businessId) in t.loyalty
  }

  function RecordOf(t: Tables, phone: string, businessId: string): LoyaltyRecord
    requires HasRecord(t, phone, businessId)
  {
    t.loyalty[(t.customers[phone].id, businessId)]
  }

  /** The pair's current visits, 0 while it has no record. */
  function VisitsAt(t: Tables, phone: string, businessId: string): int
  {
    if HasRecord(t, phone, businessId) then RecordOf(t, phone, businessId).currentVisits else 0
  }

  /** The pair's current points, 0 while it has no record. */
  function PointsAt(t: Tables, phone: string, businessId: string): int
  {
    if HasRecord(t, phone, businessId) then RecordOf(t, phone, businessId).currentPoints else 0
  }

  /** The pair has a record exactly when the check-in's customer id has one for the business. */
  lemma HasRecordAtCustomerId(t: Tables, phone: string, businessId: string)
    requires Consistent(t)
    ensures HasRecord(t, phone, businessId) <==> (CustomerIdFor(t, phone), businessId) in t.loyalty
  {
    NewIdIsFresh(t);
  }

  /** One more successful check-in adds one check-in's amounts to the pair's counters, creating its record if need be. */
  lemma NextCheckIn(t: Tables, phone: string, businessId: string)
    requires Consistent(t) && businessId in t.businesses
    ensures var t' := CheckInStep(t, phone, businessId);
            Consistent(t') && t'.businesses == t.businesses
            && CustomerIdFor(t', phone) == CustomerIdFor(t, phone) && HasRecord(t', phone, businessId)
            && VisitsAt(t', phone, businessId) == VisitsAt(t, phone, businessId) + 1
            && PointsAt(t', phone, businessId) == PointsAt(t, phone, businessId)
                                                  + PointsToAdd(t.businesses[businessId].loyaltyType)
  {
    CheckInKeepsConsistent(t, phone, businessId, None);
    CheckInFindsOrCreatesCustomer(t, phone, businessId, None);
    HasRecordAtCustomerId(t, phone, businessId);
    if (CustomerIdFor(t, phone), businessId) in t.loyalty {
      NextCheckInRepeat(t, phone, businessId);
    } else {
      NextCheckInFirst(t, phone, businessId);
    }
  }

  lemma NextCheckInRepeat(t: Tables, phone: string, businessId: string)
    requires Consistent(t) && businessId in t.businesses && HasRecord(t, phone, businessId)
    ensures var t' := CheckInStep(t, phone, businessId);
            HasRecord(t', phone, businessId)
            && VisitsAt(t', phone, businessId) == VisitsAt(t, phone, businessId) + 1
            && PointsAt(t', phone, businessId) == PointsAt(t, phone, businessId)
                                                  + PointsToAdd(t.businesses[businessId].loyaltyType)
  {
    CustomersAfter(t, phone, businessId, None);
    RepeatCheckInRaisesCounters(t, phone, businessId, None);
  }

  lemma NextCheckInFirst(t: Tables, phone: string, businessId: string)
    requires Consistent(t) && businessId in t.businesses && !HasRecord(t, phone, businessId)
    ensures var t' := CheckInStep(t, phone, businessId);
            HasRecord(t', phone, businessId)
            && VisitsAt(t', phone, businessId) == 1 && VisitsAt(t, phone, businessId) == 0
            && PointsAt(t', phone, businessId) == PointsToAdd(t.businesses[businessId].loyaltyType)
            && PointsAt(t, phone, businessId) == 0
  {
    HasRecordAtCustomerId(t, phone, businessId);
    CheckInFindsOrCreatesCustomer(t, phone, businessId, None);
    FirstCheckInCreatesRecord(t, phone, businessId, None);
  }

  lemma MultipleStep(n: int, p: int)
    ensures p + (n - 1) * p == n * p
  {
  }

  /** `n` successful check-ins add `n` visits, and `n` times one check-in's points, to the pair's counters. */
  lemma {:induction false} CheckInsAccumulate(t: Tables, phone: string, businessId: string, n: nat)
    requires Consistent(t) && businessId in t.businesses
    ensures var t' := CheckInTimes(t, phone, businessId, n);
            Consistent(t') && t'.businesses == t.businesses
            && CustomerIdFor(t', phone) == CustomerIdFor(t, phone)
            && (n >= 1 ==> HasRecord(t', phone, businessId))
            && VisitsAt(t', phone, businessId) == VisitsAt(t, phone, businessId) + n
            && PointsAt(t', phone, businessId) == PointsAt(t, phone, businessId)
                                                  + n * PointsToAdd(t.businesses[businessId].loyaltyType)
    decreases n
  {
    if n > 0 {
      var t1 := CheckInStep(t, phone, businessId);
      var p := PointsToAdd(t.businesses[businessId].loyaltyType);
      NextCheckIn(t, phone, businessId);
      CheckInsAccumulate(t1, phone, businessId, n - 1);
      MultipleStep(n, p);
    }
  }

  /**
   * Starting without a record for the pair, `n` check-ins leave a record
   * with `n` visits and `50 n` points at a "Points-based" business (0 elsewhere).
   */
  lemma RepeatedCheckIns(t: Tables, phone: string, businessId: string, n: nat)
    requires Consistent(t) && businessId in t.businesses && n >= 1
    requires (CustomerIdFor(t, phone), businessId) !in t.loyalty
    ensures var t' := CheckInTimes(t, phone, businessId, n);
            t'.businesses == t.businesses && HasRecord(t', phone, businessId)
            && t'.customers[phone].id == CustomerIdFor(t, phone)
            && RecordOf(t', phone, businessId).currentVisits == n
            && RecordOf(t', phone, businessId).currentPoints == n * PointsToAdd(t.businesses[businessId].loyaltyType)
  {
    HasRecordAtCustomerId(t, phone, businessId);
    CheckInsAccumulate(t, phone, businessId, n);
  }

  /** The in-memory backend: the tables as fields that the check-in updates in place. */
  class Backend {
    var businesses: map<string, Business>
    var customers: map<string, Customer>
    var loyalty: map<(Id, string), LoyaltyRecord>
    var transactions: seq<Transaction>
    var nextId: Id

    function State(): Tables
      reads this
    {
      Tables(businesses, customers, loyalty, transactions, nextId)
    }

    ghost predicate Valid()
      reads this
    {
      Consistent(State())
    }

    /** A backend holding the given businesses and nothing else. */
    constructor (businesses: map<string, Business>)
      ensures State() == Tables(businesses, map[], map[], [], 0)
      ensures Valid()
    {
      this.businesses := businesses;
      customers := map[];
      loyalty := map[];
      transactions := [];
      nextId := 0;
    }

    /** The customer insert: a new customer under `phone`, with the next free id. */
    method InsertCustomerRow(phone: string) returns (customer: Customer)
      requires phone !in customers
      modifies this
      ensures State() == WithCustomer(old(State()), phone)
      ensures customer == Customer(old(nextId), phone)
    {
      customer := Customer(nextId, phone);
      customers := customers[phone := customer];
      nextId := nextId + 1;
    }

    /** The loyalty write: the update of an existing record or the insert of a new one. */
    method WriteLoyaltyRow(customerId: Id, businessId: string, points: int)
      modifies this
      ensures State() == AccrueAt(old(State()), customerId, businessId, points)
    {
      var key := (customerId, businessId);
      if key in loyalty {
        var record := loyalty[key];
        loyalty := loyalty[key := Accrue(record, VisitsPerCheckIn, points)];
      } else {
        loyalty := loyalty[key := LoyaltyRecord(nextId, customerId, businessId,
                                                VisitsPerCheckIn, points, VisitsPerCheckIn, points)];
        nextId := nextId + 1;
      }
    }

    /** The transaction insert. */
    method InsertTransactionRow(tx: Transaction)
      modifies this
      ensures State() == Logged(old(State()), tx)
    {
      transactions := transactions + [tx];
    }

    /** One check-in, call by call, as `useCheckIn`'s mutation makes it. */
    method CheckIn(phone: string, businessId: string, failing: Option<Call>) returns (outcome: Outcome)
      requires Valid()
      modifies this
      ensures Valid()
      ensures (State(), outcome) == CheckInSpec(old(State()), phone, businessId, failing)
    {
      CheckInKeepsConsistent(State(), phone, businessId, failing);

      // First, ensure the customer exists.
      if failing == Some(FindCustomer) {
        return Failure(BackendError(FindCustomer));
      }
      var customer: Customer;
      if phone in customers {
        customer := customers[phone];
      } else {
        if failing == Some(InsertCustomer) {
          return Failure(BackendError(InsertCustomer));
        }
        customer := InsertCustomerRow(phone);
      }
      ghost var t1 := State();
      assert t1 == WithCustomer(old(State()), phone) && customer.id == t1.customers[phone].id;

      // Get the business, for its loyalty type.
      if failing == Some(LookupBusiness) {
        return Failure(BackendError(LookupBusiness));
      }
      if businessId !in businesses {
        return Failure(BusinessNotFound);
      }
      var business := businesses[businessId];

      // Look up the loyalty record, then update or create it.
      if failing == Some(FindLoyalty) {
        return Failure(BackendError(FindLoyalty));
      }
      var pointsToAdd := PointsToAdd(business.loyaltyType);
      if failing == Some(WriteLoyalty) {
        return Failure(BackendError(WriteLoyalty));
      }
      WriteLoyaltyRow(customer.id, businessId, pointsToAdd);

      // Record the transaction.
      if failing == Some(InsertTransaction) {
        return Failure(BackendError(InsertTransaction));
      }
      InsertTransactionRow(Transaction(customer.id, businessId, CheckInKind, pointsToAdd, VisitsPerCheckIn));
      return Success;
    }
  }
}
