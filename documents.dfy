/**
 * User documents as the registry stores them: a map from field name to a
 * JavaScript value. The object spread `{ ...a, k: v }` of the source is the
 * right-biased map union `a + map[k := v]`.
 */
module Documents {
  import opened Wrappers
  import opened UserIds

  /**
   * A field value. Timestamp stands for a server timestamp, whose actual
   * clock value is opaque to the model; Object stands for any nested object
   * or array, which the registry never looks into.
   */
  datatype Value = Str(s: string) | Num(n: int) | Bool(b: bool) | Null | Timestamp(t: int) | Object(tag: nat)

  type Doc = map<string, Value>

  const IdKey := "id"
  const UserIdKey := "userId"
  const CategoryKey := "category"
  const EmailKey := "email"
  const PrimaryPhoneKey := "primaryPhone"
  const SecondaryPhoneKey := "secondaryPhone"
  const CreatedAtKey := "createdAt"
  const UpdatedAtKey := "updatedAt"
  const PreviousIdKey := "previousId"
  const PreviousFranchiseIdKey := "previousFranchiseId"
  const IsActiveKey := "isActive"
  const LastActiveAtKey := "lastActiveAt"

  /** The two lineage fields that make a category move reversible. */
  const LineageKeys: set<string> := {PreviousIdKey, PreviousFranchiseIdKey}

  /** The fields a category move writes over the copied document. */
  const MoveKeys: set<string> := {IdKey, UserIdKey, CategoryKey, UpdatedAtKey} + LineageKeys

  /** JavaScript truthiness (NaN is not modelled). */
  predicate Truthy(v: Value)
  {
    match v
    case Str(s) => s != ""
    case Num(n) => n != 0
    case Bool(b) => b
    case Null => false
    case Timestamp(_) => true
    case Object(_) => true
  }

  /** Reading a field: an absent field reads as undefined, which behaves as Null here. */
  function Get(d: Doc, k: string): (v: Value)
    ensures k !in d ==> v == Null
  {
    if k in d then d[k] else Null
  }

  /** `d[k] || ''`. */
  function OrEmpty(d: Doc, k: string): Value
  {
    if Truthy(Get(d, k)) then d[k] else Str("")
  }

  /** The category field as the source stores detectCategory's result (null for no category). */
  function CategoryValue(c: Option<Category>): Value
  {
    match c
    case None => Null
    case Some(Customer) => Str("customer")
    case Some(Franchise) => Str("franchise")
  }

  /** String.prototype.toLowerCase, restricted to ASCII letters. */
  function LowerChar(c: char): char
  {
    if 'A' <= c <= 'Z' then (c as int + 32) as char else c
  }

  function Lower(s: string): string
  {
    seq(|s|, i requires 0 <= i < |s| => LowerChar(s[i]))
  }

  /** A document is stamped for key k when its id, userId and category agree with k. */
  predicate Stamped(d: Doc, k: string)
  {
    Get(d, IdKey) == Str(k) && Get(d, UserIdKey) == Str(k) && Get(d, CategoryKey) == CategoryValue(DetectCategory(k))
  }

  /** How a lineage field reads in `v && v.startsWith(p)`: falsy, a truthy non-string (startsWith throws), or a string. */
  datatype Lineage = Falsy | NotAString | LinkedId(id: string)

  function ReadLineage(v: Value): Lineage
  {
    if !Truthy(v) then Falsy else if v.Str? then LinkedId(v.s) else NotAString
  }

  // ---------------------------------------------------------------------
  // The documents createUser, upgradeToFranchise and revertToCustomer write

  /**
   * The document createUser writes: every supplied field, then the phone
   * numbers defaulted to '', id, userId, category and both timestamps.
   */
  function CreatedDoc(userData: Doc, userId: string, now: int): (d: Doc)
    ensures d.Keys == userData.Keys + {PrimaryPhoneKey, SecondaryPhoneKey, IdKey, UserIdKey, CategoryKey, CreatedAtKey, UpdatedAtKey}
    ensures forall k :: k in userData && k !in {PrimaryPhoneKey, SecondaryPhoneKey, IdKey, UserIdKey, CategoryKey, CreatedAtKey, UpdatedAtKey} ==> d[k] == userData[k]
    ensures Stamped(d, userId)
    ensures StartsWith(userId, "cu") ==> d[CategoryKey] == Str("customer")
    ensures Truthy(d[PrimaryPhoneKey]) || d[PrimaryPhoneKey] == Str("")
    ensures Truthy(d[SecondaryPhoneKey]) || d[SecondaryPhoneKey] == Str("")
    ensures Truthy(Get(userData, PrimaryPhoneKey)) ==> d[PrimaryPhoneKey] == userData[PrimaryPhoneKey]
    ensures Truthy(Get(userData, SecondaryPhoneKey)) ==> d[SecondaryPhoneKey] == userData[SecondaryPhoneKey]
    ensures !Truthy(Get(userData, PrimaryPhoneKey)) ==> d[PrimaryPhoneKey] == Str("")
    ensures !Truthy(Get(userData, SecondaryPhoneKey)) ==> d[SecondaryPhoneKey] == Str("")
    ensures d[CreatedAtKey] == d[UpdatedAtKey] == Timestamp(now)
  {
    userData + map[
      PrimaryPhoneKey := OrEmpty(userData, PrimaryPhoneKey),
      SecondaryPhoneKey := OrEmpty(userData, SecondaryPhoneKey),
      IdKey := Str(userId),
      UserIdKey := Str(userId),
      CategoryKey := CategoryValue(DetectCategory(userId)),
      CreatedAtKey := Timestamp(now),
      UpdatedAtKey := Timestamp(now)]
  }

  /** The copy of d a category move writes under newId, with the given lineage values. */
  function Restamp(d: Doc, newId: string, previousId: Value, previousFranchiseId: Value, now: int): (r: Doc)
    ensures r.Keys == d.Keys + MoveKeys
    ensures forall k :: k in d && k !in MoveKeys ==> r[k] == d[k]
    ensures Stamped(r, newId)
    ensures r[PreviousIdKey] == previousId && r[PreviousFranchiseIdKey] == previousFranchiseId
    ensures r[UpdatedAtKey] == Timestamp(now)
  {
    d + map[
      IdKey := Str(newId),
      UserIdKey := Str(newId),
      CategoryKey := CategoryValue(DetectCategory(newId)),
      PreviousIdKey := previousId,
      PreviousFranchiseIdKey := previousFranchiseId,
      UpdatedAtKey := Timestamp(now)]
  }

  /** upgradeToFranchise: previousId records the customer id, previousFranchiseId is cleared. */
  function UpgradedDoc(d: Doc, customerId: string, franchiseId: string, now: int): Doc
  {
    Restamp(d, franchiseId, Str(customerId), Null, now)
  }

  /** revertToCustomer: previousFranchiseId records the franchise id, previousId is cleared. */
  function RevertedDoc(d: Doc, franchiseId: string, customerId: string, now: int): Doc
  {
    Restamp(d, customerId, Null, Str(franchiseId), now)
  }

  /** A second move overwrites every field the first one wrote. */
  lemma RestampTwice(d: Doc, a: string, b: string, p1: Value, f1: Value, p2: Value, f2: Value, t1: int, t2: int)
    ensures Restamp(Restamp(d, a, p1, f1, t1), b, p2, f2, t2) == Restamp(d, b, p2, f2, t2)
  {
    var r1 := Restamp(Restamp(d, a, p1, f1, t1), b, p2, f2, t2);
    var r2 := Restamp(d, b, p2, f2, t2);
    assert r1.Keys == r2.Keys;
    forall k | k in r1.Keys
      ensures r1[k] == r2[k]
    {
    }
  }

  /**
   * Reverting an upgraded document gives back the original document, except
   * for the lineage fields and updatedAt, provided the original was stamped
   * with the customer id it was stored under.
   */
  lemma RevertUpgradedDoc(d: Doc, customerId: string, franchiseId: string, t1: int, t2: int)
    requires Stamped(d, customerId)
    ensures var r := RevertedDoc(UpgradedDoc(d, customerId, franchiseId, t1), franchiseId, customerId, t2);
      && r.Keys == d.Keys + MoveKeys
      && (forall k :: k in d && k !in LineageKeys && k != UpdatedAtKey ==> r[k] == d[k])
      && r[PreviousIdKey] == Null
      && r[PreviousFranchiseIdKey] == Str(franchiseId)
  {
    RestampTwice(d, franchiseId, customerId, Str(customerId), Null, Null, Str(franchiseId), t1, t2);
  }

  /**
   * Upgrading a reverted document gives back the franchise document, except
   * for the lineage fields and updatedAt, provided it was stamped with its
   * franchise id.
   */
  lemma UpgradeRevertedDoc(d: Doc, franchiseId: string, customerId: string, t1: int, t2: int)
    requires Stamped(d, franchiseId)
    ensures var r := UpgradedDoc(RevertedDoc(d, franchiseId, customerId, t1), customerId, franchiseId, t2);
      && r.Keys == d.Keys + MoveKeys
      && (forall k :: k in d && k !in LineageKeys && k != UpdatedAtKey ==> r[k] == d[k])
      && r[PreviousIdKey] == Str(customerId)
      && r[PreviousFranchiseIdKey] == Null
  {
    RestampTwice(d, customerId, franchiseId, Null, Str(franchiseId), Str(customerId), Null, t1, t2);
  }
}
