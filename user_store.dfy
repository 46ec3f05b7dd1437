/**
 * The identity registry's backing store (the 'counters' and 'users'
 * collections) and each registry operation as one atomic step on it. A step
 * returns the store afterwards and the operation's result; every error
 * leaves the users collection as it was.
 */
module UserStore {
  import opened Wrappers
  import opened UserIds
  import opened Documents

  /**
   * The counter documents customerCounter and franchiseCounter (None while
   * the document does not exist, else its currentCount) and the users
   * collection, keyed by user id.
   */
  datatype Store = Store(customerCounter: Option<nat>, franchiseCounter: Option<nat>, users: map<string, Doc>)

  /** The ways a registry operation fails. */
  datatype Error =
    | EmailRequired     // getUserByEmail: falsy email
    | TypeError         // a truthy non-string where the source calls a string method
    | EmailExists       // createUser: the email is already registered
    | UserIdRequired    // updateUserActiveStatus: falsy user id
    | UserNotFound      // no document under the given id
    | NotCustomer       // upgradeToFranchise on an id that is not cu-prefixed
    | NotFranchise      // revertToCustomer on an id that is not fr-prefixed
    | LineageMissing    // revertToCustomer: previousId missing or not cu-prefixed
    | StoreFailure      // the final write or move transaction did not commit

  /** The store after an operation, and what the operation returned. */
  datatype Step<T> = Step(store: Store, result: Result<T, Error>)

  /** The value of a counter document; an absent document counts as 0. */
  function Count(c: Option<nat>): nat
  {
    match c
    case None => 0
    case Some(k) => k
  }

  /** generateNextUserId selects the customer counter for 'cu' and the franchise counter for anything else. */
  predicate UsesCustomerCounter(category: string)
  {
    category == "cu"
  }

  function CounterOf(s: Store, category: string): Option<nat>
  {
    if UsesCustomerCounter(category) then s.customerCounter else s.franchiseCounter
  }

  // ---------------------------------------------------------------------
  // generateNextUserId

  /**
   * generateNextUserId as one transaction: the counter the category selects
   * goes up by one (from 0 when its document is absent), nothing else
   * changes, and the id is the category followed by the new count.
   */
  function Allocate(s: Store, category: string): (r: (Store, string))
    ensures r.0.users == s.users
    ensures CounterOf(r.0, category) == Some(Count(CounterOf(s, category)) + 1)
    ensures UsesCustomerCounter(category) ==> r.0.franchiseCounter == s.franchiseCounter
    ensures !UsesCustomerCounter(category) ==> r.0.customerCounter == s.customerCounter
    ensures r.1 == FormatUserId(category, Count(CounterOf(s, category)) + 1)
  {
    var next := match CounterOf(s, category) case None => 1 case Some(current) => current + 1;
    var after := if category == "cu" then s.(customerCounter := Some(next)) else s.(franchiseCounter := Some(next));
    (after, FormatUserId(category, next))
  }

  /**
   * The numbers successive allocations hand out, in order, and the store
   * afterwards; allocation i returns FormatUserId(categories[i], numbers[i]).
   */
  function AllocateAll(s: Store, categories: seq<string>): (r: (Store, seq<nat>))
    ensures |r.1| == |categories|
    ensures r.0.users == s.users
    decreases |categories|
  {
    if categories == [] then (s, [])
    else
      var next := Allocate(s, categories[0]).0;
      var rest := AllocateAll(next, categories[1..]);
      (rest.0, [Count(CounterOf(next, categories[0]))] + rest.1)
  }

  predicate SameCounter(a: string, b: string)
  {
    UsesCustomerCounter(a) == UsesCustomerCounter(b)
  }

  /** Every number handed out lies above its counter's value before the run and at most its value after it. */
  predicate WithinCounters(before: Store, after: Store, categories: seq<string>, numbers: seq<nat>)
    requires |numbers| == |categories|
  {
    forall i :: 0 <= i < |categories| ==>
      Count(CounterOf(before, categories[i])) < numbers[i] <= Count(CounterOf(after, categories[i]))
  }

  /** Within one counter, later allocations hand out larger numbers. */
  predicate IncreasingPerCounter(categories: seq<string>, numbers: seq<nat>)
    requires |numbers| == |categories|
  {
    forall i, j :: 0 <= i < j < |categories| && SameCounter(categories[i], categories[j]) ==> numbers[i] < numbers[j]
  }

  /** Neither counter goes down from one store to the other. */
  predicate CountersGrow(before: Store, after: Store)
  {
    Count(after.customerCounter) >= Count(before.customerCounter) && Count(after.franchiseCounter) >= Count(before.franchiseCounter)
  }

  /**
   * Every number handed out lies above the counter's value before the run
   * and at most its value after it, and within one counter the numbers
   * strictly increase: no counter value is ever handed out twice.
   */
  lemma {:induction false} AllocationsIncrease(s: Store, categories: seq<string>)
    ensures var r := AllocateAll(s, categories);
      && CountersGrow(s, r.0)
      && WithinCounters(s, r.0, categories, r.1)
      && IncreasingPerCounter(categories, r.1)
    decreases |categories|
  {
    if categories != [] {
      var next := Allocate(s, categories[0]).0;
      AllocationsIncrease(next, categories[1..]);
      var r := AllocateAll(s, categories);
      assert r.1[1..] == AllocateAll(next, categories[1..]).1;
      WithinCountersCons(s, next, r.0, categories, r.1);
      IncreasingCons(next, r.0, categories, r.1);
    }
  }

  /** The first allocation of a run, placed before the rest, stays within the counters. */
  lemma WithinCountersCons(s: Store, next: Store, after: Store, categories: seq<string>, numbers: seq<nat>)
    requires |numbers| == |categories| > 0
    requires next == Allocate(s, categories[0]).0 && numbers[0] == Count(CounterOf(next, categories[0]))
    requires CountersGrow(next, after) && WithinCounters(next, after, categories[1..], numbers[1..])
    ensures CountersGrow(s, after) && WithinCounters(s, after, categories, numbers)
  {
    forall i | 1 <= i < |categories|
      ensures Count(CounterOf(s, categories[i])) < numbers[i] <= Count(CounterOf(after, categories[i]))
    {
      assert categories[1..][i - 1] == categories[i] && numbers[1..][i - 1] == numbers[i];
    }
  }

  /** A number taken before the rest of a run is below every later number from the same counter. */
  lemma IncreasingCons(next: Store, after: Store, categories: seq<string>, numbers: seq<nat>)
    requires |numbers| == |categories| > 0
    requires numbers[0] == Count(CounterOf(next, categories[0]))
    requires WithinCounters(next, after, categories[1..], numbers[1..])
    requires IncreasingPerCounter(categories[1..], numbers[1..])
    ensures IncreasingPerCounter(categories, numbers)
  {
    forall i, j | 0 <= i < j < |categories| && SameCounter(categories[i], categories[j])
      ensures numbers[i] < numbers[j]
    {
      assert categories[1..][j - 1] == categories[j] && numbers[1..][j - 1] == numbers[j];
      if i > 0 {
        assert categories[1..][i - 1] == categories[i] && numbers[1..][i - 1] == numbers[i];
      }
    }
  }

  /** How many allocations of a run draw on the customer counter. */
  function CustomerAllocations(categories: seq<string>): nat
    decreases |categories|
  {
    if categories == [] then 0
    else (if UsesCustomerCounter(categories[0]) then 1 else 0) + CustomerAllocations(categories[1..])
  }

  /** How many allocations of a run draw on the franchise counter. */
  function FranchiseAllocations(categories: seq<string>): nat
    decreases |categories|
  {
    if categories == [] then 0
    else (if UsesCustomerCounter(categories[0]) then 0 else 1) + FranchiseAllocations(categories[1..])
  }

  /**
   * Each counter ends exactly as many steps above where it started as the
   * allocations it served: with the bounds of AllocationsIncrease, a run
   * hands out every number in between, with no gaps.
   */
  lemma {:induction false} AllocationsAdvanceByOne(s: Store, categories: seq<string>)
    ensures Count(AllocateAll(s, categories).0.customerCounter) == Count(s.customerCounter) + CustomerAllocations(categories)
    ensures Count(AllocateAll(s, categories).0.franchiseCounter) == Count(s.franchiseCounter) + FranchiseAllocations(categories)
    decreases |categories|
  {
    if categories != [] {
      AllocationsAdvanceByOne(Allocate(s, categories[0]).0, categories[1..]);
    }
  }

  /** Allocations under the prefixes the registry uses ("cu" and "fr") never return the same id twice. */
  lemma AllocatedIdsDistinct(s: Store, categories: seq<Category>, i: nat, j: nat)
    requires i < j < |categories|
    ensures var prefixes := seq(|categories|, k requires 0 <= k < |categories| => Prefix(categories[k]));
      var numbers := AllocateAll(s, prefixes).1;
      FormatUserId(prefixes[i], numbers[i]) != FormatUserId(prefixes[j], numbers[j])
  {
    var prefixes := seq(|categories|, k requires 0 <= k < |categories| => Prefix(categories[k]));
    var numbers := AllocateAll(s, prefixes).1;
    AllocationsIncrease(s, prefixes);
    if FormatUserId(prefixes[i], numbers[i]) == FormatUserId(prefixes[j], numbers[j]) {
      FormatUserIdInjective(categories[i], categories[j], numbers[i], numbers[j]);
      assert false;
    }
  }

  /**
   * The counters cover the users collection: every key that reads as an
   * allocated cu or fr id carries a number its counter has already reached.
   */
  ghost predicate NumbersCovered(s: Store)
  {
    && (forall n: nat :: FormatUserId("cu", n) in s.users ==> n <= Count(s.customerCounter))
    && (forall n: nat :: FormatUserId("fr", n) in s.users ==> n <= Count(s.franchiseCounter))
  }

  /** When the counters cover the users collection, a fresh allocation is not yet a key, and the cover persists. */
  lemma AllocateFresh(s: Store, c: Category)
    requires NumbersCovered(s)
    ensures Allocate(s, Prefix(c)).1 !in s.users
    ensures NumbersCovered(Allocate(s, Prefix(c)).0)
  {
  }

  /** Writing a record under a freshly allocated id keeps the counters covering the users collection. */
  lemma CoveredAfterInsert(s: Store, c: Category, d: Doc)
    requires NumbersCovered(s)
    ensures var a := Allocate(s, Prefix(c));
      NumbersCovered(a.0.(users := a.0.users[a.1 := d]))
  {
    var a := Allocate(s, Prefix(c));
    var next := Count(CounterOf(s, Prefix(c))) + 1;
    var t := a.0.(users := a.0.users[a.1 := d]);
    forall n: nat | FormatUserId("cu", n) in t.users
      ensures n <= Count(t.customerCounter)
    {
      if FormatUserId("cu", n) == a.1 {
        FormatUserIdInjective(Customer, c, n, next);
      }
    }
    forall n: nat | FormatUserId("fr", n) in t.users
      ensures n <= Count(t.franchiseCounter)
    {
      if FormatUserId("fr", n) == a.1 {
        FormatUserIdInjective(Franchise, c, n, next);
      }
    }
  }

  // ---------------------------------------------------------------------
  // getUserByEmail

  /** The query of getUserByEmail: some stored user's email equals the lower-cased input. */
  predicate EmailRegistered(users: map<string, Doc>, email: string)
  {
    exists k :: k in users && Get(users[k], EmailKey) == Str(Lower(email))
  }

  /** `{ id: doc.id, ...doc.data() }`: a stored document as getUserByEmail and getUserById return it. */
  function WithId(k: string, d: Doc): (r: Doc)
    ensures r.Keys == d.Keys + {IdKey}
    ensures forall f :: f in d ==> r[f] == d[f]
    ensures IdKey !in d ==> r[IdKey] == Str(k)
  {
    map[IdKey := Str(k)] + d
  }

  // ---------------------------------------------------------------------
  // createUser

  /**
   * createUser. A falsy or non-string email fails in getUserByEmail; a
   * registered email fails; otherwise a cu id is allocated and the created
   * document is written under it. A write that does not commit fails after
   * the allocation, so the customer number is consumed.
   */
  function CreateStep(s: Store, userData: Doc, now: int, committed: bool): (r: Step<string>)
    ensures r.result.Ok? <==>
      Get(userData, EmailKey).Str? && Get(userData, EmailKey).s != ""
      && !EmailRegistered(s.users, Get(userData, EmailKey).s) && committed
    ensures r.result == Err(EmailExists) <==>
      Get(userData, EmailKey).Str? && Get(userData, EmailKey).s != "" && EmailRegistered(s.users, Get(userData, EmailKey).s)
    ensures r.result.Err? ==> r.store.users == s.users
    ensures r.result.Err? && r.result.error != StoreFailure ==> r.store == s
    ensures r.store.franchiseCounter == s.franchiseCounter
    ensures r.store.customerCounter == s.customerCounter || r.store.customerCounter == Some(Count(s.customerCounter) + 1)
    ensures r.result == Err(StoreFailure) <==>
      Get(userData, EmailKey).Str? && Get(userData, EmailKey).s != ""
      && !EmailRegistered(s.users, Get(userData, EmailKey).s) && !committed
    ensures r.result == Err(StoreFailure) ==> r.store == Allocate(s, "cu").0
    ensures r.result.Ok? ==>
      var id := r.result.value;
      && id == FormatUserId("cu", Count(s.customerCounter) + 1)
      && r.store.customerCounter == Some(Count(s.customerCounter) + 1)
      && r.store.users.Keys == s.users.Keys + {id}
      && r.store.users[id] == CreatedDoc(userData, id, now)
      && r.store.users[id][CategoryKey] == Str("customer")
      && (forall k :: k in s.users && k != id ==> r.store.users[k] == s.users[k])
  {
    var email := Get(userData, EmailKey);
    if !Truthy(email) then Step(s, Err(EmailRequired))
    else if !email.Str? then Step(s, Err(TypeError))
    else if EmailRegistered(s.users, email.s) then Step(s, Err(EmailExists))
    else
      var afterAlloc := Allocate(s, "cu").0;
      var userId := Allocate(s, "cu").1;
      if !committed then Step(afterAlloc, Err(StoreFailure))
      else Step(afterAlloc.(users := afterAlloc.users[userId := CreatedDoc(userData, userId, now)]), Ok(userId))
  }

  /** When the counters cover the users collection, createUser adds a record and never overwrites one. */
  lemma CreateAddsFreshRecord(s: Store, userData: Doc, now: int, committed: bool)
    requires NumbersCovered(s)
    ensures var r := CreateStep(s, userData, now, committed);
      && NumbersCovered(r.store)
      && (r.result.Ok? ==> r.result.value !in s.users && |r.store.users| == |s.users| + 1)
  {
    AllocateFresh(s, Customer);
    var r := CreateStep(s, userData, now, committed);
    if r.result.Ok? {
      var id := r.result.value;
      CoveredAfterInsert(s, Customer, CreatedDoc(userData, id, now));
      assert r.store.users.Keys == s.users.Keys + {id};
    } else if r.result.error == StoreFailure {
      assert r.store == Allocate(s, "cu").0;
    }
  }

  // ---------------------------------------------------------------------
  // updateUser and updateUserActiveStatus

  /**
   * updateUser: the fields given are merged into the stored document, with
   * category pinned to the id's category when the id has one and updatedAt
   * stamped. updateDoc fails on a missing document.
   */
  function UpdateStep(s: Store, userId: string, updateData: Doc, now: int): (r: Step<()>)
    ensures r.result.Ok? <==> userId in s.users
    ensures r.result.Err? ==> r.store == s
    ensures r.store.customerCounter == s.customerCounter && r.store.franchiseCounter == s.franchiseCounter
    ensures r.store.users.Keys == s.users.Keys
    ensures forall k :: k in s.users && k != userId ==> r.store.users[k] == s.users[k]
    ensures r.result.Ok? ==>
      var d := r.store.users[userId];
      && d.Keys == s.users[userId].Keys + updateData.Keys + {UpdatedAtKey} + (if DetectCategory(userId).Some? then {CategoryKey} else {})
      && (forall f :: f in updateData && f != CategoryKey && f != UpdatedAtKey ==> d[f] == updateData[f])
      && (forall f :: f in s.users[userId] && f !in updateData && f != CategoryKey && f != UpdatedAtKey ==> d[f] == s.users[userId][f])
      && d[UpdatedAtKey] == Timestamp(now)
      && (DetectCategory(userId).Some? ==> d[CategoryKey] == CategoryValue(DetectCategory(userId)))
      && (DetectCategory(userId).None? ==> Get(d, CategoryKey) == Get(s.users[userId] + updateData, CategoryKey))
  {
    if userId !in s.users then Step(s, Err(UserNotFound))
    else
      var category := DetectCategory(userId);
      var data := if category.Some? then updateData[CategoryKey := CategoryValue(category)] else updateData;
      Step(s.(users := s.users[userId := s.users[userId] + data + map[UpdatedAtKey := Timestamp(now)]]), Ok(()))
  }

  /** updateUserActiveStatus: a falsy id fails; otherwise isActive, lastActiveAt and updatedAt are merged in. */
  function ActiveStatusStep(s: Store, userId: string, isActive: bool, now: int): (r: Step<()>)
    ensures r.result.Ok? <==> userId != "" && userId in s.users
    ensures r.result.Err? ==> r.store == s
    ensures r.store.customerCounter == s.customerCounter && r.store.franchiseCounter == s.franchiseCounter
    ensures r.store.users.Keys == s.users.Keys
    ensures forall k :: k in s.users && k != userId ==> r.store.users[k] == s.users[k]
    ensures r.result.Ok? ==>
      var d := r.store.users[userId];
      && d.Keys == s.users[userId].Keys + {IsActiveKey, LastActiveAtKey, UpdatedAtKey}
      && d[IsActiveKey] == Bool(isActive)
      && d[LastActiveAtKey] == d[UpdatedAtKey] == Timestamp(now)
      && (forall f :: f in s.users[userId] && f !in {IsActiveKey, LastActiveAtKey, UpdatedAtKey} ==> d[f] == s.users[userId][f])
  {
    if userId == "" then Step(s, Err(UserIdRequired))
    else if userId !in s.users then Step(s, Err(UserNotFound))
    else
      var d := s.users[userId] + map[IsActiveKey := Bool(isActive), LastActiveAtKey := Timestamp(now), UpdatedAtKey := Timestamp(now)];
      Step(s.(users := s.users[userId := d]), Ok(()))
  }

  // ---------------------------------------------------------------------
  // upgradeToFranchise and revertToCustomer

  /** `previousFranchiseId && previousFranchiseId.startsWith('fr')`: the franchise id an upgrade reuses. */
  function ReusableFranchiseId(d: Doc): (r: Option<string>)
    ensures r.Some? <==> Get(d, PreviousFranchiseIdKey).Str? && StartsWith(Get(d, PreviousFranchiseIdKey).s, "fr")
    ensures r.Some? ==> r.value == Get(d, PreviousFranchiseIdKey).s
  {
    match ReadLineage(Get(d, PreviousFranchiseIdKey))
    case LinkedId(id) => if StartsWith(id, "fr") then Some(id) else None
    case _ => None
  }

  /**
   * The users collection after moving the document at `from` to `to`: the
   * transaction sets the new document, then deletes the old one.
   */
  function Move(users: map<string, Doc>, from: string, to: string, d: Doc): map<string, Doc>
  {
    users[to := d] - {from}
  }

  /** The move leaves exactly one record and touches nothing else. */
  predicate MovedOnly(before: map<string, Doc>, after: map<string, Doc>, from: string, to: string)
  {
    && from in before && from !in after && to in after
    && after.Keys == before.Keys - {from} + {to}
    && (forall k :: k in before && k != from && k != to ==> after[k] == before[k])
  }

  /**
   * upgradeToFranchise. The document must exist and its id be cu-prefixed. The
   * new id is previousFranchiseId when that is an fr-prefixed string, else a
   * freshly allocated fr id; a truthy non-string previousFranchiseId makes
   * startsWith throw. The allocation comes before the move transaction, so a
   * move that does not commit still consumes the franchise number.
   */
  function UpgradeStep(s: Store, userId: string, now: int, committed: bool): (r: Step<string>)
    ensures r.result == Err(UserNotFound) <==> userId !in s.users
    ensures userId in s.users && !StartsWith(userId, "cu") ==> r.result == Err(NotCustomer)
    ensures r.result.Ok? <==>
      userId in s.users && StartsWith(userId, "cu") && committed
      && !ReadLineage(Get(s.users[userId], PreviousFranchiseIdKey)).NotAString?
    ensures r.result.Err? ==> r.store.users == s.users
    ensures r.result.Err? && r.result.error != StoreFailure ==> r.store == s
    ensures r.store.customerCounter == s.customerCounter
    ensures r.store.franchiseCounter == s.franchiseCounter || r.store.franchiseCounter == Some(Count(s.franchiseCounter) + 1)
    ensures r.result == Err(StoreFailure) <==>
      userId in s.users && StartsWith(userId, "cu") && !committed
      && !ReadLineage(Get(s.users[userId], PreviousFranchiseIdKey)).NotAString?
    ensures r.result == Err(StoreFailure) ==>
      r.store == if ReusableFranchiseId(s.users[userId]).Some? then s else Allocate(s, "fr").0
    ensures r.result.Ok? ==>
      var f := r.result.value;
      var d := s.users[userId];
      && StartsWith(f, "fr")
      && MovedOnly(s.users, r.store.users, userId, f)
      && r.store.users[f] == UpgradedDoc(d, userId, f, now)
      && r.store.users[f][CategoryKey] == Str("franchise")
      && (ReusableFranchiseId(d).Some? ==> f == ReusableFranchiseId(d).value && r.store == s.(users := r.store.users))
      && (ReusableFranchiseId(d).None? ==>
            f == FormatUserId("fr", Count(s.franchiseCounter) + 1)
            && r.store.franchiseCounter == Some(Count(s.franchiseCounter) + 1))
  {
    if userId !in s.users then Step(s, Err(UserNotFound))
    else if DetectCategory(userId) != Some(Customer) then Step(s, Err(NotCustomer))
    else
      var d := s.users[userId];
      if ReadLineage(Get(d, PreviousFranchiseIdKey)).NotAString? then Step(s, Err(TypeError))
      else
        var next := if ReusableFranchiseId(d).Some? then (s, ReusableFranchiseId(d).value) else Allocate(s, "fr");
        var afterAlloc := next.0;
        var franchiseId := next.1;
        if !committed then Step(afterAlloc, Err(StoreFailure))
        else
          var moved := Move(afterAlloc.users, userId, franchiseId, UpgradedDoc(d, userId, franchiseId, now));
          Step(afterAlloc.(users := moved), Ok(franchiseId))
  }

  /**
   * revertToCustomer. The document must exist, its id be fr-prefixed and its
   * previousId a cu-prefixed string; the document then moves back to
   * previousId. No counter is touched.
   */
  function RevertStep(s: Store, userId: string, now: int, committed: bool): (r: Step<string>)
    ensures r.result == Err(UserNotFound) <==> userId !in s.users
    ensures userId in s.users && !StartsWith(userId, "fr") ==> r.result == Err(NotFranchise)
    ensures r.result.Ok? <==>
      userId in s.users && StartsWith(userId, "fr") && committed
      && Get(s.users[userId], PreviousIdKey).Str? && StartsWith(Get(s.users[userId], PreviousIdKey).s, "cu")
    ensures r.store.customerCounter == s.customerCounter && r.store.franchiseCounter == s.franchiseCounter
    ensures r.result.Err? ==> r.store == s
    ensures r.result.Ok? ==>
      var c := r.result.value;
      var d := s.users[userId];
      && c == Get(d, PreviousIdKey).s
      && StartsWith(c, "cu")
      && MovedOnly(s.users, r.store.users, userId, c)
      && r.store.users[c] == RevertedDoc(d, userId, c, now)
      && r.store.users[c][CategoryKey] == Str("customer")
  {
    if userId !in s.users then Step(s, Err(UserNotFound))
    else if DetectCategory(userId) != Some(Franchise) then Step(s, Err(NotFranchise))
    else
      var d := s.users[userId];
      match ReadLineage(Get(d, PreviousIdKey))
      case Falsy => Step(s, Err(LineageMissing))
      case NotAString => Step(s, Err(TypeError))
      case LinkedId(customerId) =>
        if !StartsWith(customerId, "cu") then Step(s, Err(LineageMissing))
        else if !committed then Step(s, Err(StoreFailure))
        else Step(s.(users := Move(s.users, userId, customerId, RevertedDoc(d, userId, customerId, now))), Ok(customerId))
  }

  /** When the counters cover the users collection, an upgrade that allocates moves the record to a key nobody holds. */
  lemma UpgradeAllocatesFreshKey(s: Store, userId: string, now: int, committed: bool)
    requires NumbersCovered(s)
    requires userId in s.users && ReusableFranchiseId(s.users[userId]).None?
    ensures var r := UpgradeStep(s, userId, now, committed);
      && NumbersCovered(r.store)
      && (r.result.Ok? ==> r.result.value !in s.users && |r.store.users| == |s.users|)
  {
    AllocateFresh(s, Franchise);
    var r := UpgradeStep(s, userId, now, committed);
    if r.result.Ok? {
      var f := r.result.value;
      assert r.store.users.Keys == s.users.Keys - {userId} + {f};
      var a := Allocate(s, "fr");
      var d := UpgradedDoc(s.users[userId], userId, f, now);
      CoveredAfterInsert(s, Franchise, d);
      assert r.store == a.0.(users := a.0.users[a.1 := d]).(users := a.0.users[a.1 := d] - {userId});
    }
  }

  /**
   * A previousFranchiseId that arrived with the user's data is trusted as it
   * is. With the counters covering the collection, upgrading a customer who
   * carries 'fr000001' moves the record there without advancing the
   * franchise counter; the next allocating upgrade is handed fr000001 as
   * well and overwrites that record, so two customers end as one record.
   */
  lemma SuppliedLineageOverwrites(d2: Doc, now: int)
    requires PreviousFranchiseIdKey !in d2
    ensures var s := Store(Some(2), None, map["cu000001" := map[PreviousFranchiseIdKey := Str("fr000001")], "cu000002" := d2]);
      var up1 := UpgradeStep(s, "cu000001", now, true);
      var up2 := UpgradeStep(up1.store, "cu000002", now, true);
      && NumbersCovered(s)
      && up1.result == Ok("fr000001") && up1.store.franchiseCounter == None
      && up2.result == Ok("fr000001")
      && up2.store.users.Keys == {"fr000001"}
  {
    var s := Store(Some(2), None, map["cu000001" := map[PreviousFranchiseIdKey := Str("fr000001")], "cu000002" := d2]);
    TwoCustomersCovered(s);
    SuppliedIdReused(s, d2, now);
    var up1 := UpgradeStep(s, "cu000001", now, true);
    AllocatingUpgradeTakesFirst(up1.store, now);
  }

  lemma SuppliedIdReused(s: Store, d2: Doc, now: int)
    requires s == Store(Some(2), None, map["cu000001" := map[PreviousFranchiseIdKey := Str("fr000001")], "cu000002" := d2])
    ensures var up1 := UpgradeStep(s, "cu000001", now, true);
      && up1.result == Ok("fr000001") && up1.store.franchiseCounter == None
      && up1.store.users.Keys == {"cu000002", "fr000001"} && up1.store.users["cu000002"] == d2
  {
    assert StartsWith("cu000001", "cu") && StartsWith("fr000001", "fr");
    assert ReusableFranchiseId(s.users["cu000001"]) == Some("fr000001");
  }

  lemma AllocatingUpgradeTakesFirst(t: Store, now: int)
    requires t.franchiseCounter == None && t.users.Keys == {"cu000002", "fr000001"}
    requires PreviousFranchiseIdKey !in t.users["cu000002"]
    ensures var up2 := UpgradeStep(t, "cu000002", now, true);
      up2.result == Ok("fr000001") && up2.store.users.Keys == {"fr000001"}
  {
    assert StartsWith("cu000002", "cu");
    assert ReusableFranchiseId(t.users["cu000002"]).None?;
    assert FormatUserId("fr", 1) == "fr000001";
  }

  lemma TwoCustomersCovered(s: Store)
    requires s.customerCounter == Some(2) && s.franchiseCounter == None && s.users.Keys == {"cu000001", "cu000002"}
    ensures NumbersCovered(s)
  {
    FirstIds();
    forall n: nat | FormatUserId("cu", n) in s.users
      ensures n <= 2
    {
      if FormatUserId("cu", n) == FormatUserId("cu", 1) {
        FormatUserIdInjective(Customer, Customer, n, 1);
      } else {
        FormatUserIdInjective(Customer, Customer, n, 2);
      }
    }
    forall n: nat
      ensures FormatUserId("fr", n) !in s.users
    {
      assert FormatUserId("fr", n)[..2] == "fr";
    }
  }

  /**
   * Whatever fields the record carries, reverting an upgraded customer
   * returns the customer id, touches no counter, and leaves every other
   * record as before except one that already sat at the franchise id; the
   * record is the upgraded copy, reverted.
   */
  lemma RevertAfterUpgradeReturnsId(s: Store, customerId: string, t1: int, t2: int)
    requires UpgradeStep(s, customerId, t1, true).result.Ok?
    ensures var up := UpgradeStep(s, customerId, t1, true);
      var f := up.result.value;
      var back := RevertStep(up.store, f, t2, true);
      && back.result == Ok(customerId)
      && back.store.customerCounter == up.store.customerCounter
      && back.store.franchiseCounter == up.store.franchiseCounter
      && back.store.users.Keys == s.users.Keys - {f} + {customerId}
      && (forall k :: k in s.users && k != f && k != customerId ==> back.store.users[k] == s.users[k])
      && back.store.users[customerId] == RevertedDoc(UpgradedDoc(s.users[customerId], customerId, f, t1), f, customerId, t2)
  {
    var up := UpgradeStep(s, customerId, t1, true);
    var f := up.result.value;
    assert up.store.users[f][PreviousIdKey] == Str(customerId);
  }

  /**
   * Whatever fields the record carries, upgrading a reverted franchise
   * returns the franchise id it came from with neither counter moving, and
   * leaves every other record as before except one that already sat at that
   * id; the record is the reverted copy, upgraded.
   */
  lemma UpgradeAfterRevertReturnsId(s: Store, franchiseId: string, t1: int, t2: int)
    requires RevertStep(s, franchiseId, t1, true).result.Ok?
    ensures var back := RevertStep(s, franchiseId, t1, true);
      var c := back.result.value;
      var up := UpgradeStep(back.store, c, t2, true);
      && up.result == Ok(franchiseId)
      && up.store.customerCounter == s.customerCounter
      && up.store.franchiseCounter == s.franchiseCounter
      && up.store.users.Keys == s.users.Keys - {c} + {franchiseId}
      && (forall k :: k in s.users && k != c && k != franchiseId ==> up.store.users[k] == s.users[k])
      && up.store.users[franchiseId] == UpgradedDoc(RevertedDoc(s.users[franchiseId], franchiseId, c, t1), c, franchiseId, t2)
  {
    var back := RevertStep(s, franchiseId, t1, true);
    var c := back.result.value;
    assert back.store.users[c][PreviousFranchiseIdKey] == Str(franchiseId);
    assert ReusableFranchiseId(back.store.users[c]) == Some(franchiseId);
  }

  /**
   * Reverting an upgraded customer restores the original id; the record at
   * that id equals the original one except for the lineage fields and
   * updatedAt. Every other record is as before, except that a record which
   * already sat at the franchise id is gone.
   */
  lemma RevertUndoesUpgrade(s: Store, customerId: string, t1: int, t2: int)
    requires customerId in s.users && Stamped(s.users[customerId], customerId)
    requires UpgradeStep(s, customerId, t1, true).result.Ok?
    ensures var up := UpgradeStep(s, customerId, t1, true);
      var f := up.result.value;
      var back := RevertStep(up.store, f, t2, true);
      var d := s.users[customerId];
      && back.result == Ok(customerId)
      && back.store.customerCounter == up.store.customerCounter
      && back.store.franchiseCounter == up.store.franchiseCounter
      && back.store.users.Keys == s.users.Keys - {f} + {customerId}
      && (forall k :: k in s.users && k != f && k != customerId ==> back.store.users[k] == s.users[k])
      && back.store.users[customerId].Keys == d.Keys + MoveKeys
      && (forall k :: k in d && k !in LineageKeys && k != UpdatedAtKey ==> back.store.users[customerId][k] == d[k])
      && back.store.users[customerId][PreviousFranchiseIdKey] == Str(f)
  {
    var up := UpgradeStep(s, customerId, t1, true);
    var f := up.result.value;
    var d := s.users[customerId];
    RevertAfterUpgradeReturnsId(s, customerId, t1, t2);
    RevertUpgradedDoc(d, customerId, f, t1, t2);
  }

  /**
   * Upgrading a reverted franchise reuses the franchise id it came from,
   * without advancing either counter; the record there equals the original
   * franchise record except for the lineage fields and updatedAt.
   */
  lemma UpgradeAfterRevertReusesId(s: Store, franchiseId: string, t1: int, t2: int)
    requires franchiseId in s.users && Stamped(s.users[franchiseId], franchiseId)
    requires RevertStep(s, franchiseId, t1, true).result.Ok?
    ensures var back := RevertStep(s, franchiseId, t1, true);
      var c := back.result.value;
      var up := UpgradeStep(back.store, c, t2, true);
      var d := s.users[franchiseId];
      && up.result == Ok(franchiseId)
      && up.store.customerCounter == s.customerCounter
      && up.store.franchiseCounter == s.franchiseCounter
      && up.store.users.Keys == s.users.Keys - {c} + {franchiseId}
      && (forall k :: k in s.users && k != c && k != franchiseId ==> up.store.users[k] == s.users[k])
      && up.store.users[franchiseId].Keys == d.Keys + MoveKeys
      && (forall k :: k in d && k !in LineageKeys && k != UpdatedAtKey ==> up.store.users[franchiseId][k] == d[k])
      && up.store.users[franchiseId][PreviousIdKey] == Str(c)
  {
    var back := RevertStep(s, franchiseId, t1, true);
    var c := back.result.value;
    var d := s.users[franchiseId];
    UpgradeAfterRevertReturnsId(s, franchiseId, t1, t2);
    UpgradeRevertedDoc(d, franchiseId, c, t1, t2);
  }

  // ---------------------------------------------------------------------
  // The category invariant over any sequence of operations

  /** Every record whose id has a category carries that category. */
  ghost predicate CategoryPinned(users: map<string, Doc>)
  {
    forall k :: k in users && DetectCategory(k).Some? ==> Get(users[k], CategoryKey) == CategoryValue(DetectCategory(k))
  }

  /** A registry operation, with the inputs the model takes in place of the clock and the store's commit. */
  datatype Op =
    | GenerateNextUserId(category: string)
    | CreateUser(userData: Doc, now: int, committed: bool)
    | UpdateUser(userId: string, updateData: Doc, now: int)
    | UpdateUserActiveStatus(userId: string, isActive: bool, now: int)
    | UpgradeToFranchise(userId: string, now: int, committed: bool)
    | RevertToCustomer(userId: string, now: int, committed: bool)

  function Apply(s: Store, op: Op): Store
  {
    match op
    case GenerateNextUserId(category) => Allocate(s, category).0
    case CreateUser(userData, now, committed) => CreateStep(s, userData, now, committed).store
    case UpdateUser(userId, updateData, now) => UpdateStep(s, userId, updateData, now).store
    case UpdateUserActiveStatus(userId, isActive, now) => ActiveStatusStep(s, userId, isActive, now).store
    case UpgradeToFranchise(userId, now, committed) => UpgradeStep(s, userId, now, committed).store
    case RevertToCustomer(userId, now, committed) => RevertStep(s, userId, now, committed).store
  }

  /** The store after running the operations in order. */
  function Run(s: Store, ops: seq<Op>): Store
    decreases |ops|
  {
    if ops == [] then s else Run(Apply(s, ops[0]), ops[1..])
  }

  /** Every registry operation keeps each record's category equal to its id's category. */
  lemma ApplyKeepsCategoryPinned(s: Store, op: Op)
    requires CategoryPinned(s.users)
    ensures CategoryPinned(Apply(s, op).users)
  {
    var after := Apply(s, op).users;
    forall k | k in after && DetectCategory(k).Some?
      ensures Get(after[k], CategoryKey) == CategoryValue(DetectCategory(k))
    {
      if k !in s.users || after[k] != s.users[k] {
        match op
        case GenerateNextUserId(_) =>
        case CreateUser(userData, now, committed) =>
        case UpdateUser(userId, updateData, now) =>
        case UpdateUserActiveStatus(userId, _, _) =>
          assert k == userId && CategoryKey !in {IsActiveKey, LastActiveAtKey, UpdatedAtKey};
        case UpgradeToFranchise(userId, now, committed) =>
        case RevertToCustomer(userId, now, committed) =>
      }
    }
  }

  /** Starting from a store where it holds (an empty one, say), the category invariant holds after any run. */
  lemma {:induction false} RunKeepsCategoryPinned(s: Store, ops: seq<Op>)
    requires CategoryPinned(s.users)
    ensures CategoryPinned(Run(s, ops).users)
    decreases |ops|
  {
    if ops != [] {
      ApplyKeepsCategoryPinned(s, ops[0]);
      RunKeepsCategoryPinned(Apply(s, ops[0]), ops[1..]);
    }
  }

  // ---------------------------------------------------------------------
  // Scenarios

  /** An empty registry gives its first customer cu000001 and refuses a second account for the same email. */
  lemma FirstCustomerScenario(now: int)
    ensures var data := map[EmailKey := Str("a@x.com")];
      var first := CreateStep(Store(None, None, map[]), data, now, true);
      && first.result == Ok("cu000001")
      && first.store.customerCounter == Some(1)
      && CreateStep(first.store, data, now, true) == Step(first.store, Err(EmailExists))
  {
    var data := map[EmailKey := Str("a@x.com")];
    var s0 := Store(None, None, map[]);
    assert !EmailRegistered(s0.users, "a@x.com");
    var first := CreateStep(s0, data, now, true);
    assert first.result == Ok(FormatUserId("cu", 1));
    FirstIds();
    var id := "cu000001";
    assert first.store.users[id] == CreatedDoc(data, id, now);
    assert Get(first.store.users[id], EmailKey) == Str("a@x.com");
    LowerLiterals();
    assert EmailRegistered(first.store.users, "a@x.com");
  }

  lemma FirstIds()
    ensures FormatUserId("cu", 1) == "cu000001"
    ensures FormatUserId("cu", 2) == "cu000002"
  {
  }

  lemma LowerLiterals()
    ensures Lower("a@x.com") == "a@x.com"
    ensures Lower("A@x.com") != "A@x.com"
  {
    assert Lower("A@x.com")[0] == 'a';
  }

  /** With the franchise counter at 4, upgrading cu000001 moves it to fr000005. */
  lemma UpgradeScenario(d: Doc, now: int)
    requires PreviousFranchiseIdKey !in d
    ensures var s := Store(Some(1), Some(4), map["cu000001" := d]);
      var r := UpgradeStep(s, "cu000001", now, true);
      && r.result == Ok("fr000005")
      && r.store.franchiseCounter == Some(5)
      && "cu000001" !in r.store.users
      && r.store.users["fr000005"][PreviousIdKey] == Str("cu000001")
  {
    assert FormatUserId("fr", 5) == "fr000005";
    assert StartsWith("cu000001", "cu");
  }

  // ---------------------------------------------------------------------
  // The duplicate-email check compares case-sensitively

  lemma LowerIdempotent(e: string)
    ensures Lower(Lower(e)) == Lower(e)
  {
  }

  /**
   * As written, createUser stores the email as given but looks for the
   * lower-cased one, so an address with an upper-case letter is never found
   * and a second account for it is created.
   */
  lemma DuplicateEmailAdmitted(now: int)
    ensures var data := map[EmailKey := Str("A@x.com")];
      var first := CreateStep(Store(None, None, map[]), data, now, true);
      var second := CreateStep(first.store, data, now, true);
      && first.result.Ok? && second.result.Ok?
      && first.result.value != second.result.value
      && Get(second.store.users[first.result.value], EmailKey) == Str("A@x.com")
      && Get(second.store.users[second.result.value], EmailKey) == Str("A@x.com")
      && !EmailsUnique(second.store.users)
  {
    var data := map[EmailKey := Str("A@x.com")];
    var id1, id2 := "cu000001", "cu000002";
    var first := CreateStep(Store(None, None, map[]), data, now, true);
    MixedCaseFirst(now);
    var second := CreateStep(first.store, data, now, true);
    MixedCaseSecond(now, first.store);
    var users := second.store.users;
    assert id1 in users && id2 in users && id1 != id2;
    assert Get(users[id1], EmailKey) == Get(users[id2], EmailKey) == Str("A@x.com");
  }

  lemma MixedCaseFirst(now: int)
    ensures var data := map[EmailKey := Str("A@x.com")];
      var first := CreateStep(Store(None, None, map[]), data, now, true);
      && first.result == Ok("cu000001")
      && first.store == Store(Some(1), None, map["cu000001" := CreatedDoc(data, "cu000001", now)])
  {
    var data := map[EmailKey := Str("A@x.com")];
    var s0 := Store(None, None, map[]);
    assert !EmailRegistered(s0.users, "A@x.com");
    FirstIds();
  }

  lemma MixedCaseSecond(now: int, s1: Store)
    requires s1 == Store(Some(1), None, map["cu000001" := CreatedDoc(map[EmailKey := Str("A@x.com")], "cu000001", now)])
    ensures var data := map[EmailKey := Str("A@x.com")];
      var second := CreateStep(s1, data, now, true);
      && second.result == Ok("cu000002")
      && second.store.users["cu000001"] == s1.users["cu000001"]
      && Get(s1.users["cu000001"], EmailKey) == Str("A@x.com")
      && Get(second.store.users["cu000002"], EmailKey) == Str("A@x.com")
  {
    var data := map[EmailKey := Str("A@x.com")];
    var id1 := "cu000001";
    assert Get(s1.users[id1], EmailKey) == Str("A@x.com");
    LowerLiterals();
    assert s1.users.Keys == {id1};
    assert !EmailRegistered(s1.users, "A@x.com");
    FirstIds();
  }

  /** The intended check: some stored email equals the input up to case. */
  predicate EmailRegisteredFolded(users: map<string, Doc>, email: string)
  {
    exists k :: k in users && Get(users[k], EmailKey).Str? && Lower(Get(users[k], EmailKey).s) == Lower(email)
  }

  /** No two records hold the same email up to case. */
  ghost predicate EmailsUnique(users: map<string, Doc>)
  {
    forall k1, k2 :: k1 in users && k2 in users && k1 != k2 && Get(users[k1], EmailKey).Str? && Get(users[k2], EmailKey).Str?
      ==> Lower(Get(users[k1], EmailKey).s) != Lower(Get(users[k2], EmailKey).s)
  }

  /** The case-insensitive check rejects every email the source's check rejects. */
  lemma FoldedCheckCoversAsWritten(users: map<string, Doc>, email: string)
    requires EmailRegistered(users, email)
    ensures EmailRegisteredFolded(users, email)
  {
    var k :| k in users && Get(users[k], EmailKey) == Str(Lower(email));
    LowerIdempotent(email);
  }

  /** createUser with the duplicate check made case-insensitive. */
  function CreateStepFolded(s: Store, userData: Doc, now: int, committed: bool): (r: Step<string>)
    ensures Get(userData, EmailKey).Str? && Get(userData, EmailKey).s != "" && EmailRegisteredFolded(s.users, Get(userData, EmailKey).s)
      ==> r == Step(s, Err(EmailExists))
  {
    var email := Get(userData, EmailKey);
    if email.Str? && email.s != "" && EmailRegisteredFolded(s.users, email.s) then Step(s, Err(EmailExists))
    else CreateStep(s, userData, now, committed)
  }

  /** The corrected createUser keeps emails unique up to case. */
  lemma FoldedCreateKeepsEmailsUnique(s: Store, userData: Doc, now: int, committed: bool)
    requires EmailsUnique(s.users)
    ensures EmailsUnique(CreateStepFolded(s, userData, now, committed).store.users)
  {
    var r := CreateStepFolded(s, userData, now, committed);
    if r.result.Ok? {
      var id := r.result.value;
      var email := Get(userData, EmailKey);
      assert !EmailRegisteredFolded(s.users, email.s);
      assert Get(r.store.users[id], EmailKey) == email;
      forall k1, k2 | k1 in r.store.users && k2 in r.store.users && k1 != k2
          && Get(r.store.users[k1], EmailKey).Str? && Get(r.store.users[k2], EmailKey).Str?
        ensures Lower(Get(r.store.users[k1], EmailKey).s) != Lower(Get(r.store.users[k2], EmailKey).s)
      {
        if k1 == id {
          assert k2 in s.users && r.store.users[k2] == s.users[k2];
        } else if k2 == id {
          assert k1 in s.users && r.store.users[k1] == s.users[k1];
        }
      }
    }
  }
}
