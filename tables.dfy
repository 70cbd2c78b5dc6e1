/** Product and order records and the sequence operations the handlers
    perform on the `products` and `orders` tables: the records built by
    object spread, `findIndex` by id, `splice` of one element and the
    admin-only listing filter. */
module Tables {

  import opened Values
  import opened Decimal

  const IdKey := "id"
  const AdminKey := "addedByAdmin"
  const CreatedKey := "createdAt"
  const UpdatedKey := "updatedAt"
  const StatusKey := "status"
  const Pending := "pending"

  /** The id the in-memory stores generate:
      `Date.now().toString() + Math.random().toString(36).substr(2, 9)`,
      the random part given as `suffix`. */
  function TimeBasedId(now: nat, suffix: string): string
  {
    NatToString(now) + suffix
  }

  /** Ids whose random parts have the same length (nine characters, save
      for the rare shorter draw) can be read back: the instant and the
      random part. So such ids drawn in different milliseconds never clash. */
  lemma TimeBasedIdReadBack(t1: nat, suffix1: string, t2: nat, suffix2: string)
    requires |suffix1| == |suffix2|
    requires TimeBasedId(t1, suffix1) == TimeBasedId(t2, suffix2)
    ensures t1 == t2 && suffix1 == suffix2
  {
    var id := TimeBasedId(t1, suffix1);
    var d1, d2 := NatToString(t1), NatToString(t2);
    assert |d1| == |d2|;
    assert d1 == id[..|d1|] == d2;
    NatToStringInjective(t1, t2);
    assert suffix1 == id[|d1|..] == suffix2;
  }

  /** `{id: freshId, ...body, addedByAdmin: true, createdAt: now}`. */
  function NewProduct(body: Record, freshId: string, now: int): (p: Record)
    ensures p.Keys == body.Keys + {IdKey, AdminKey, CreatedKey}
    ensures p[AdminKey] == Bool(true) && p[CreatedKey] == Time(now)
    ensures p[IdKey] == if IdKey in body then body[IdKey] else Str(freshId)
    ensures forall k :: k in body && k != AdminKey && k != CreatedKey ==> p[k] == body[k]
  {
    map[IdKey := Str(freshId)] + body + map[AdminKey := Bool(true), CreatedKey := Time(now)]
  }

  /** `{id: freshId, ...body, status: 'pending', createdAt: now}`. */
  function NewOrder(body: Record, freshId: string, now: int): (o: Record)
    ensures o.Keys == body.Keys + {IdKey, StatusKey, CreatedKey}
    ensures o[StatusKey] == Str(Pending) && o[CreatedKey] == Time(now)
    ensures o[IdKey] == if IdKey in body then body[IdKey] else Str(freshId)
    ensures forall k :: k in body && k != StatusKey && k != CreatedKey ==> o[k] == body[k]
  {
    map[IdKey := Str(freshId)] + body + map[StatusKey := Str(Pending), CreatedKey := Time(now)]
  }

  /** `{...prev, ...body, id, addedByAdmin: true, updatedAt: now}`. */
  function PatchProduct(prev: Record, body: Record, id: string, now: int): (p: Record)
    ensures p.Keys == prev.Keys + body.Keys + {IdKey, AdminKey, UpdatedKey}
    ensures p[IdKey] == Str(id) && p[AdminKey] == Bool(true) && p[UpdatedKey] == Time(now)
    ensures forall k :: k in body && k !in {IdKey, AdminKey, UpdatedKey} ==> p[k] == body[k]
    ensures forall k :: k in prev && k !in body && k !in {IdKey, AdminKey, UpdatedKey} ==> p[k] == prev[k]
  {
    prev + body + map[IdKey := Str(id), AdminKey := Bool(true), UpdatedKey := Time(now)]
  }

  /** `{...prev, ...body, updatedAt: now}`. */
  function PatchOrder(prev: Record, body: Record, now: int): (o: Record)
    ensures o.Keys == prev.Keys + body.Keys + {UpdatedKey}
    ensures o[UpdatedKey] == Time(now)
    ensures forall k :: k in body && k != UpdatedKey ==> o[k] == body[k]
    ensures forall k :: k in prev && k !in body && k != UpdatedKey ==> o[k] == prev[k]
  {
    prev + body + map[UpdatedKey := Time(now)]
  }

  /** `r.id === id` for a route parameter `id`, which is a string. */
  predicate HasId(r: Record, id: string)
  {
    Holds(r, IdKey, Str(id))
  }

  /** `s.findIndex(r => r.id === id)`: the first index holding the id, or -1. */
  function FindById(s: seq<Record>, id: string): (i: int)
    ensures -1 <= i < |s|
    ensures i == -1 <==> forall j :: 0 <= j < |s| ==> !HasId(s[j], id)
    ensures 0 <= i ==> HasId(s[i], id) && forall j :: 0 <= j < i ==> !HasId(s[j], id)
  {
    if s == [] then -1
    else if HasId(s[0], id) then 0
    else
      var k := FindById(s[1..], id);
      if k == -1 then -1 else k + 1
  }

  /** `s.splice(i, 1)`: the sequence without its element at `i`. */
  function RemoveAt<T>(s: seq<T>, i: nat): (r: seq<T>)
    requires i < |s|
    ensures |r| == |s| - 1
    ensures forall j :: 0 <= j < i ==> r[j] == s[j]
    ensures forall j :: i <= j < |r| ==> r[j] == s[j + 1]
  {
    s[..i] + s[i + 1..]
  }

  /** Removing one element removes exactly that element from the multiset of elements. */
  lemma RemoveAtMultiset<T>(s: seq<T>, i: nat)
    requires i < |s|
    ensures multiset(s) == multiset(RemoveAt(s, i)) + multiset{s[i]}
  {
    assert s == s[..i] + [s[i]] + s[i + 1..];
  }

  /** `p.addedByAdmin === true`. */
  predicate IsAdminAdded(p: Record)
  {
    Holds(p, AdminKey, Bool(true))
  }

  /** `products.filter(p => p.addedByAdmin === true)`. */
  function AdminOnly(s: seq<Record>): (r: seq<Record>)
    ensures |r| <= |s|
    ensures forall p :: p in r <==> p in s && IsAdminAdded(p)
  {
    if s == [] then []
    else (if IsAdminAdded(s[0]) then [s[0]] else []) + AdminOnly(s[1..])
  }

  /** The filter keeps stored order: it distributes over concatenation. */
  lemma {:induction false} AdminOnlyAppend(a: seq<Record>, b: seq<Record>)
    ensures AdminOnly(a + b) == AdminOnly(a) + AdminOnly(b)
  {
    if a == [] {
      assert a + b == b;
    } else {
      var head := if IsAdminAdded(a[0]) then [a[0]] else [];
      assert (a + b)[0] == a[0];
      assert (a + b)[1..] == a[1..] + b;
      AdminOnlyAppend(a[1..], b);
      calc {
        AdminOnly(a + b);
        head + AdminOnly(a[1..] + b);
        head + (AdminOnly(a[1..]) + AdminOnly(b));
        (head + AdminOnly(a[1..])) + AdminOnly(b);
        AdminOnly(a) + AdminOnly(b);
      }
    }
  }

  /** A created product is listed, last. */
  lemma ListingAfterCreate(s: seq<Record>, body: Record, freshId: string, now: int)
    ensures AdminOnly(s + [NewProduct(body, freshId, now)]) == AdminOnly(s) + [NewProduct(body, freshId, now)]
  {
    AdminOnlyAppend(s, [NewProduct(body, freshId, now)]);
  }

  /** Replacing a record by an admin-added one lists the new record at
      its place among the listed ones. */
  lemma {:induction false} ListingAfterReplace(s: seq<Record>, i: nat, p: Record)
    requires i < |s| && IsAdminAdded(p)
    ensures AdminOnly(s[i := p]) == AdminOnly(s[..i]) + [p] + AdminOnly(s[i + 1..])
  {
    assert s[i := p] == s[..i] + [p] + s[i + 1..];
    AdminOnlyAppend(s[..i] + [p], s[i + 1..]);
    AdminOnlyAppend(s[..i], [p]);
    assert AdminOnly([p]) == [p] by {
      assert [p][1..] == [];
    }
  }

  /** An updated product is listed, at its place among the listed ones. */
  lemma ListingAfterUpdate(s: seq<Record>, i: nat, body: Record, id: string, now: int)
    requires i < |s|
    ensures AdminOnly(s[i := PatchProduct(s[i], body, id, now)])
            == AdminOnly(s[..i]) + [PatchProduct(s[i], body, id, now)] + AdminOnly(s[i + 1..])
  {
    var p := PatchProduct(s[i], body, id, now);
    assert IsAdminAdded(p);
    ListingAfterReplace(s, i, p);
  }

  /** A deleted product drops out of the listing, the others stay in order. */
  lemma ListingAfterDelete(s: seq<Record>, i: nat)
    requires i < |s|
    ensures AdminOnly(RemoveAt(s, i)) == AdminOnly(s[..i]) + AdminOnly(s[i + 1..])
  {
    AdminOnlyAppend(s[..i], s[i + 1..]);
  }

  /** Appending a record changes a lookup only when nothing earlier had the id. */
  lemma {:induction false} FindAfterAppend(s: seq<Record>, r: Record, id: string)
    ensures FindById(s + [r], id) ==
            if FindById(s, id) != -1 then FindById(s, id)
            else if HasId(r, id) then |s| else -1
  {
    var t := s + [r];
    assert forall j :: 0 <= j < |s| ==> t[j] == s[j];
    assert t[|s|] == r;
  }

  /** An update pins the id, so the patched record stays the first one with it. */
  lemma UpdateKeepsPosition(s: seq<Record>, id: string, body: Record, now: int)
    requires FindById(s, id) != -1
    ensures var i := FindById(s, id);
            FindById(s[i := PatchProduct(s[i], body, id, now)], id) == i
  {
    var i := FindById(s, id);
    var t := s[i := PatchProduct(s[i], body, id, now)];
    assert HasId(t[i], id);
    assert forall j :: 0 <= j < i ==> t[j] == s[j];
  }

  /** With no `id` in the body and an unused fresh id, the created product's
      id is one no stored product has. */
  lemma CreatedIdUnseen(s: seq<Record>, body: Record, freshId: string, now: int)
    requires IdKey !in body
    requires FindById(s, freshId) == -1
    ensures HasId(NewProduct(body, freshId, now), freshId)
    ensures FindById(s + [NewProduct(body, freshId, now)], freshId) == |s|
  {
    var p := NewProduct(body, freshId, now);
    assert HasId(p, freshId);
    FindAfterAppend(s, p, freshId);
  }

  /** A body-supplied `id` wins over the generated one, so a create can
      duplicate a stored id; lookups by that id then still reach the older record. */
  lemma BodyIdDuplicates(s: seq<Record>, body: Record, freshId: string, now: int, id: string)
    requires Holds(body, IdKey, Str(id))
    requires FindById(s, id) != -1
    ensures HasId(NewProduct(body, freshId, now), id)
    ensures FindById(s + [NewProduct(body, freshId, now)], id) == FindById(s, id)
  {
    var p := NewProduct(body, freshId, now);
    assert HasId(p, id);
    FindAfterAppend(s, p, id);
  }
}
