/** The two families of string keys: the keys under which pending writes are recorded, and the keys of
    the store. */
module Keys {
  import opened Prelude
  import opened Text
  import opened TestModel

  // ---- Keys of pending writes ----

  /** PersistenceEntry.updateKey */
  function UpdateKey(m: Mark): string {
    match m
    case AddStart(time) => "0-" + Decimal(time)
    case RemoveStart(time) => "1-" + Decimal(time)
    case CollectionShallow(uid) => "2-" + uid + "nil"
    case EntryShallow(uid, id) => "3-" + uid + Decimal(id)
    case EntryResult(uid, id) => "4-" + uid + Decimal(id)
    case EntrySpec(uid, id) => "5-" + uid + Decimal(id)
    case DeleteCollection(uid) => "6-" + uid + "nil"
  }

  predicate HasUid(m: Mark) {
    !m.AddStart? && !m.RemoveStart?
  }

  ghost predicate MarkOk(m: Mark) {
    HasUid(m) ==> IsUid(m.uid)
  }

  function KindDigit(m: Mark): char {
    match m
    case AddStart(_) => '0'
    case RemoveStart(_) => '1'
    case CollectionShallow(_) => '2'
    case EntryShallow(_, _) => '3'
    case EntryResult(_, _) => '4'
    case EntrySpec(_, _) => '5'
    case DeleteCollection(_) => '6'
  }

  function KeyTail(m: Mark): string {
    match m
    case AddStart(time) => Decimal(time)
    case RemoveStart(time) => Decimal(time)
    case CollectionShallow(_) => "nil"
    case EntryShallow(_, id) => Decimal(id)
    case EntryResult(_, id) => Decimal(id)
    case EntrySpec(_, id) => Decimal(id)
    case DeleteCollection(_) => "nil"
  }

  lemma UpdateKeyParts(m: Mark)
    ensures UpdateKey(m) == [KindDigit(m), '-'] + (if HasUid(m) then m.uid else "") + KeyTail(m)
  {
  }

  /** Distinct records have distinct keys, although the UID and the id are not separated. */
  lemma UpdateKeyInjective(m: Mark, n: Mark)
    requires MarkOk(m) && MarkOk(n)
    requires UpdateKey(m) == UpdateKey(n)
    ensures m == n
  {
    UpdateKeyParts(m);
    UpdateKeyParts(n);
    assert UpdateKey(m)[0] == KindDigit(m) && UpdateKey(n)[0] == KindDigit(n);
    var head := [KindDigit(m), '-'];
    if HasUid(m) {
      ConcatSplit(head + m.uid, KeyTail(m), head + n.uid, KeyTail(n));
      ConcatSplit(head, m.uid, head, n.uid);
    } else {
      assert head + "" + KeyTail(m) == head + KeyTail(m);
      assert head + "" + KeyTail(n) == head + KeyTail(n);
      ConcatSplit(head, KeyTail(m), head, KeyTail(n));
    }
    TailInjective(m, n);
  }

  lemma TailInjective(m: Mark, n: Mark)
    requires KindDigit(m) == KindDigit(n) && KeyTail(m) == KeyTail(n)
    requires HasUid(m) ==> m.uid == n.uid
    ensures m == n
  {
    match m
    case AddStart(time) => DecimalInjective(time, n.time);
    case RemoveStart(time) => DecimalInjective(time, n.time);
    case EntryShallow(_, id) => DecimalInjective(id, n.id);
    case EntryResult(_, id) => DecimalInjective(id, n.id);
    case EntrySpec(_, id) => DecimalInjective(id, n.id);
    case CollectionShallow(_) =>
    case DeleteCollection(_) =>
  }

  // ---- Keys of the store ----

  const COLLECTION := "test-collection-"
  const ENTITY := "test-collection-entity-"
  const START_TIME := "test-start-time-"
  const SHALLOW := "-test-entry-shallow-"
  const RESULT := "-test-entry-result-"
  const SPEC := "-test-entry-test-entry-"

  function EntityKey(uid: string): string {
    ENTITY + uid
  }

  function ChildPrefix(uid: string, family: string): string {
    COLLECTION + uid + family
  }

  function ChildKey(uid: string, family: string, id: int): string {
    ChildPrefix(uid, family) + Decimal(id)
  }

  function StartKey(millis: int): string {
    START_TIME + Decimal(millis)
  }

  lemma UidHasNoLetterN(u: string)
    requires IsUid(u)
    ensures u[0] != 'n' && u[1] != 'n'
    ensures 't' !in u && '.' !in u
  {
  }

  lemma EntityParts(uid: string)
    ensures EntityKey(uid) == COLLECTION + ("entity-" + uid)
  {
    assert ENTITY == COLLECTION + "entity-";
  }

  lemma ChildParts(uid: string, family: string, tail: string)
    ensures ChildPrefix(uid, family) + tail == COLLECTION + (uid + (family + tail))
  {
  }

  /** The keys that ListKeysByPrefix finds when a collection is deleted. */
  predicate BelongsTo(key: string, uid: string) {
    ENTITY + uid <= key || COLLECTION + uid <= key
  }

  lemma EntityBelongs(u: string, v: string)
    requires IsUid(u) && IsUid(v)
    ensures BelongsTo(EntityKey(u), v) <==> u == v
  {
    EntityParts(u);
    UidHasNoLetterN(v);
    PrefixCancel(ENTITY, v, u);
    PrefixCancel(COLLECTION, v, "entity-" + u);
    assert ("entity-" + u)[1] == 'n';
    NoPrefix(v, "entity-" + u, 1);
  }

  lemma ChildBelongs(u: string, family: string, tail: string, v: string)
    requires IsUid(u) && IsUid(v)
    ensures BelongsTo(ChildPrefix(u, family) + tail, v) <==> u == v
  {
    ChildParts(u, family, tail);
    EntityParts(v);
    UidHasNoLetterN(u);
    var rest := u + (family + tail);
    PrefixCancel(COLLECTION, v, rest);
    PrefixCancel(COLLECTION, "entity-" + v, rest);
    if v <= rest {
      assert rest[..36] == u && v == rest[..36];
    }
    assert rest[1] == u[1] && ("entity-" + v)[1] == 'n';
    NoPrefix("entity-" + v, rest, 1);
  }

  /** No start-time key belongs to a collection. */
  lemma StartKeyBelongsToNone(millis: int, v: string)
    ensures !BelongsTo(StartKey(millis), v)
  {
    assert StartKey(millis)[5] == 's';
    assert (ENTITY + v)[5] == 'c' && (COLLECTION + v)[5] == 'c';
  }

  /** A child key is in exactly one family of exactly one collection. */
  lemma ChildPrefixMatches(u: string, family: string, id: int, v: string, other: string)
    requires IsUid(u) && IsUid(v)
    requires family in {SHALLOW, RESULT, SPEC} && other in {SHALLOW, RESULT, SPEC}
    ensures ChildPrefix(v, other) <= ChildKey(u, family, id) <==> u == v && family == other
  {
    var tail := family + Decimal(id);
    ChildParts(u, family, Decimal(id));
    ChildParts(v, other, "");
    assert ChildPrefix(v, other) + "" == ChildPrefix(v, other);
    assert other + "" == other;
    PrefixCancel(COLLECTION, v + other, u + tail);
    if v + other <= u + tail {
      assert (u + tail)[..36] == u && (v + other)[..36] == v;
      PrefixCancel(u, other, tail);
      FamilyPrefix(family, Decimal(id), other);
    }
    if u == v && family == other {
      assert u + tail == v + other + Decimal(id);
    }
  }

  lemma FamilyPrefix(family: string, tail: string, other: string)
    requires family in {SHALLOW, RESULT, SPEC} && other in {SHALLOW, RESULT, SPEC}
    ensures other <= family + tail ==> family == other
  {
    assert SHALLOW[12] == 's' && RESULT[12] == 'r' && SPEC[12] == 't';
  }

  lemma ChildKeyInjective(u: string, family: string, id: int, v: string, other: string, id': int)
    requires IsUid(u) && IsUid(v)
    requires family in {SHALLOW, RESULT, SPEC} && other in {SHALLOW, RESULT, SPEC}
    requires ChildKey(u, family, id) == ChildKey(v, other, id')
    ensures u == v && family == other && id == id'
  {
    assert ChildPrefix(v, other) <= ChildKey(v, other, id');
    ChildPrefixMatches(u, family, id, v, other);
    ConcatCancelLeft(ChildPrefix(u, family), Decimal(id), Decimal(id'));
    DecimalInjective(id, id');
  }

  lemma EntityIsNoChild(u: string, v: string, family: string, tail: string)
    requires IsUid(u) && IsUid(v)
    ensures EntityKey(u) != ChildPrefix(v, family) + tail
    ensures !(ChildPrefix(v, family) <= EntityKey(u))
    ensures !(ENTITY <= ChildPrefix(v, family) + tail)
  {
    EntityParts(u);
    ChildParts(v, family, tail);
    UidHasNoLetterN(v);
    assert |COLLECTION| == 16;
    var key, child := EntityKey(u), ChildPrefix(v, family);
    assert key[17] == 'n' && ENTITY[17] == 'n';
    assert child[17] == v[1] && (child + tail)[17] == v[1];
    NoPrefix(child, key, 17);
    NoPrefix(ENTITY, child + tail, 17);
  }

  lemma EntityKeyInjective(u: string, v: string)
    requires EntityKey(u) == EntityKey(v)
    ensures u == v
  {
    ConcatCancelLeft(ENTITY, u, v);
  }

  /** The key under which a record is written. */
  function StoreKey(m: Mark): string {
    match m
    case AddStart(time) => StartKey(Millis(time))
    case RemoveStart(time) => StartKey(Millis(time))
    case CollectionShallow(uid) => EntityKey(uid)
    case EntryShallow(uid, id) => ChildKey(uid, SHALLOW, id)
    case EntryResult(uid, id) => ChildKey(uid, RESULT, id)
    case EntrySpec(uid, id) => ChildKey(uid, SPEC, id)
    case DeleteCollection(uid) => EntityKey(uid)
  }

  predicate IsUpdate(m: Mark) {
    m.CollectionShallow? || m.EntryShallow? || m.EntryResult? || m.EntrySpec?
  }

  /** Store keys are injective as well. */
  lemma StoreKeyInjective(m: Mark, n: Mark)
    requires MarkOk(m) && MarkOk(n) && IsUpdate(m) && IsUpdate(n)
    requires StoreKey(m) == StoreKey(n)
    ensures m == n
  {
    if m.CollectionShallow? && n.CollectionShallow? {
      EntityKeyInjective(m.uid, n.uid);
    } else if m.CollectionShallow? {
      EntityIsNoChild(m.uid, n.uid, FamilyOf(n), Decimal(n.id));
    } else if n.CollectionShallow? {
      EntityIsNoChild(n.uid, m.uid, FamilyOf(m), Decimal(m.id));
    } else {
      ChildKeyInjective(m.uid, FamilyOf(m), m.id, n.uid, FamilyOf(n), n.id);
      FamiliesDiffer();
    }
  }

  function FamilyOf(m: Mark): string
    requires m.EntryShallow? || m.EntryResult? || m.EntrySpec?
  {
    match m
    case EntryShallow(_, _) => SHALLOW
    case EntryResult(_, _) => RESULT
    case EntrySpec(_, _) => SPEC
  }

  lemma FamiliesDiffer()
    ensures SHALLOW != RESULT && RESULT != SPEC && SHALLOW != SPEC
  {
    assert SHALLOW[12] == 's' && RESULT[12] == 'r' && SPEC[12] == 't';
  }

  /** The key of an update belongs to the collection it is about, and to no other. */
  lemma UpdateBelongs(m: Mark, v: string)
    requires MarkOk(m) && IsUpdate(m) && IsUid(v)
    ensures BelongsTo(StoreKey(m), v) <==> m.uid == v
  {
    if m.CollectionShallow? {
      EntityBelongs(m.uid, v);
    } else {
      ChildBelongs(m.uid, FamilyOf(m), Decimal(m.id), v);
    }
  }

  /** The key of an update contains the UID of its collection. */
  lemma UpdateContainsUid(m: Mark)
    requires IsUpdate(m)
    ensures Contains(StoreKey(m), m.uid)
    ensures COLLECTION <= StoreKey(m)
  {
    if m.CollectionShallow? {
      EntityParts(m.uid);
      WithoutTail(ENTITY + m.uid);
      ContainsInTheMiddle(ENTITY, m.uid, "");
    } else {
      ChildParts(m.uid, FamilyOf(m), Decimal(m.id));
      Regroup(COLLECTION, m.uid, FamilyOf(m) + Decimal(m.id));
      ContainsInTheMiddle(COLLECTION, m.uid, FamilyOf(m) + Decimal(m.id));
    }
  }

  lemma WithoutTail(s: string)
    ensures s + "" == s
  {
  }
}
