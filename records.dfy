/** The list operations shared by the record stores for medications and
    appointments: the hooks build new arrays with spread, `map`, `filter`
    and `find`; the slices use `push`, `findIndex` and `filter`. A record is
    its `id` beside its remaining fields, which is what `{ ...fields, id }`
    builds. Ids are plain strings and the stores never check that they are
    unique, so nothing here assumes it. */
module Records {
  import opened Wrappers

  datatype Keyed<T> = Keyed(id: string, data: T)

  predicate HasId<T>(s: seq<Keyed<T>>, id: string) {
    exists i :: 0 <= i < |s| && s[i].id == id
  }

  /** No two records share an id. */
  ghost predicate UniqueIds<T>(s: seq<Keyed<T>>) {
    forall i, j :: 0 <= i < j < |s| ==> s[i].id != s[j].id
  }

  /** Number of records carrying `id`. */
  function CountId<T>(s: seq<Keyed<T>>, id: string): (n: nat)
    ensures n <= |s|
    ensures n == 0 <==> !HasId(s, id)
  {
    if s == [] then 0
    else (if s[0].id == id then 1 else 0) + CountId(s[1..], id)
  }

  /** `[...list, { ...data, id }]`: one new record at the end. */
  function Append<T>(s: seq<Keyed<T>>, id: string, data: T): (r: seq<Keyed<T>>)
    ensures |r| == |s| + 1
    ensures r[..|s|] == s
    ensures r[|s|].id == id && r[|s|].data == data
  {
    s + [Keyed(id, data)]
  }

  /** `list.map(x => x.id === rec.id ? rec : x)`: every record carrying
      `rec.id` is replaced, every other one is kept where it was. */
  function ReplaceAll<T>(s: seq<Keyed<T>>, rec: Keyed<T>): (r: seq<Keyed<T>>)
    ensures |r| == |s|
    ensures forall i :: 0 <= i < |s| && s[i].id == rec.id ==> r[i] == rec
    ensures forall i :: 0 <= i < |s| && s[i].id != rec.id ==> r[i] == s[i]
  {
    if s == [] then []
    else [if s[0].id == rec.id then rec else s[0]] + ReplaceAll(s[1..], rec)
  }

  /** `list.filter(x => x.id !== id)`. */
  function RemoveAll<T>(s: seq<Keyed<T>>, id: string): (r: seq<Keyed<T>>)
    ensures |r| == |s| - CountId(s, id)
    ensures forall i :: 0 <= i < |r| ==> r[i] in s && r[i].id != id
    ensures forall i :: 0 <= i < |s| && s[i].id != id ==> s[i] in r
  {
    if s == [] then []
    else if s[0].id == id then RemoveAll(s[1..], id)
    else [s[0]] + RemoveAll(s[1..], id)
  }

  /** `list.findIndex(x => x.id === id)`: the first position carrying `id`,
      or -1. */
  function FindIndex<T>(s: seq<Keyed<T>>, id: string): (k: int)
    ensures -1 <= k < |s|
    ensures k == -1 <==> !HasId(s, id)
    ensures k != -1 ==> s[k].id == id && forall j :: 0 <= j < k ==> s[j].id != id
  {
    if s == [] then -1
    else if s[0].id == id then 0
    else
      var k := FindIndex(s[1..], id);
      if k == -1 then -1 else k + 1
  }

  /** `list.find(x => x.id === id)`: the first record carrying `id`, or
      nothing. */
  function FindFirst<T>(s: seq<Keyed<T>>, id: string): (r: Option<Keyed<T>>)
    ensures r.None? <==> !HasId(s, id)
    ensures r.Some? ==> r.value.id == id && r.value == s[FindIndex(s, id)]
  {
    if s == [] then None
    else if s[0].id == id then Some(s[0])
    else FindFirst(s[1..], id)
  }

  /** `a` is `b` with some elements left out, the rest in their order. */
  ghost predicate IsSubsequence<T>(a: seq<T>, b: seq<T>)
    decreases |b|
  {
    if a == [] then true
    else if b == [] then false
    else (a[0] == b[0] && IsSubsequence(a[1..], b[1..])) || IsSubsequence(a, b[1..])
  }

  // ---------------------------------------------------------------- lemmas

  /** Replacing an id that is not present changes nothing. */
  lemma ReplaceAllAbsent<T>(s: seq<Keyed<T>>, rec: Keyed<T>)
    ensures !HasId(s, rec.id) ==> ReplaceAll(s, rec) == s
  {
    if !HasId(s, rec.id) {
      var r := ReplaceAll(s, rec);
      assert forall i :: 0 <= i < |s| ==> s[i].id != rec.id;
    }
  }

  /** Removing an id that is not present changes nothing. */
  lemma {:induction false} RemoveAllAbsent<T>(s: seq<Keyed<T>>, id: string)
    ensures !HasId(s, id) ==> RemoveAll(s, id) == s
  {
    if s != [] && !HasId(s, id) {
      assert s[0].id != id;
      assert !HasId(s[1..], id) by {
        forall i | 0 <= i < |s[1..]| ensures s[1..][i].id != id {
          assert s[1..][i] == s[i + 1];
        }
      }
      RemoveAllAbsent(s[1..], id);
      assert s == [s[0]] + s[1..];
    }
  }

  /** After a delete no record carries the id any more. */
  lemma RemoveAllRemoves<T>(s: seq<Keyed<T>>, id: string)
    ensures !HasId(RemoveAll(s, id), id)
  {
    var r := RemoveAll(s, id);
    forall i | 0 <= i < |r| ensures r[i].id != id {
      assert r[i] in r;
    }
  }

  /** Deleting twice is deleting once. */
  lemma RemoveAllIdempotent<T>(s: seq<Keyed<T>>, id: string)
    ensures RemoveAll(RemoveAll(s, id), id) == RemoveAll(s, id)
  {
    RemoveAllRemoves(s, id);
    RemoveAllAbsent(RemoveAll(s, id), id);
  }

  /** Delete keeps the surviving records in their original order. */
  lemma {:induction false} RemoveAllKeepsOrder<T>(s: seq<Keyed<T>>, id: string)
    ensures IsSubsequence(RemoveAll(s, id), s)
  {
    if s != [] {
      RemoveAllKeepsOrder(s[1..], id);
      var r := RemoveAll(s, id);
      if s[0].id == id {
        if r != [] {
          assert IsSubsequence(r, s[1..]);
        }
      } else {
        assert r == [s[0]] + RemoveAll(s[1..], id);
        assert r[1..] == RemoveAll(s[1..], id);
      }
    }
  }

  /** Delete works piecewise: filtering a concatenation filters each part. */
  lemma {:induction false} RemoveAllConcat<T>(a: seq<Keyed<T>>, b: seq<Keyed<T>>, id: string)
    ensures RemoveAll(a + b, id) == RemoveAll(a, id) + RemoveAll(b, id)
  {
    if a != [] {
      assert (a + b)[0] == a[0];
      assert (a + b)[1..] == a[1..] + b;
      RemoveAllConcat(a[1..], b, id);
    } else {
      assert a + b == b;
    }
  }

  /** `find` on a concatenation looks in the first part, then the second. */
  lemma {:induction false} FindFirstConcat<T>(a: seq<Keyed<T>>, b: seq<Keyed<T>>, id: string)
    ensures FindFirst(a + b, id) == if HasId(a, id) then FindFirst(a, id) else FindFirst(b, id)
  {
    if a == [] {
      assert a + b == b;
    } else {
      assert (a + b)[0] == a[0];
      assert (a + b)[1..] == a[1..] + b;
      FindFirstConcat(a[1..], b, id);
      if a[0].id != id {
        assert HasId(a, id) <==> HasId(a[1..], id) by {
          if HasId(a, id) {
            var i :| 0 <= i < |a| && a[i].id == id;
            assert a[1..][i - 1] == a[i];
          }
          if HasId(a[1..], id) {
            var i :| 0 <= i < |a[1..]| && a[1..][i].id == id;
            assert a[i + 1] == a[1..][i];
          }
        }
      }
    }
  }

  /** Lookup after add: a fresh id finds exactly the added record; an id
      already present still finds the older record, which shadows the new one. */
  lemma FindFirstAfterAppend<T>(s: seq<Keyed<T>>, id: string, data: T)
    ensures FindFirst(Append(s, id, data), id) ==
            if HasId(s, id) then FindFirst(s, id) else Some(Keyed(id, data))
  {
    FindFirstConcat(s, [Keyed(id, data)], id);
  }

  /** Lookup after an update of a present id returns the new record. */
  lemma {:induction false} FindFirstAfterReplaceAll<T>(s: seq<Keyed<T>>, rec: Keyed<T>)
    requires HasId(s, rec.id)
    ensures FindFirst(ReplaceAll(s, rec), rec.id) == Some(rec)
  {
    var r := ReplaceAll(s, rec);
    if s[0].id != rec.id {
      assert r == [s[0]] + ReplaceAll(s[1..], rec);
      assert r[1..] == ReplaceAll(s[1..], rec);
      var i :| 0 <= i < |s| && s[i].id == rec.id;
      assert s[1..][i - 1] == s[i];
      FindFirstAfterReplaceAll(s[1..], rec);
    }
  }

  /** Lookup after a delete finds nothing. */
  lemma FindFirstAfterRemoveAll<T>(s: seq<Keyed<T>>, id: string)
    ensures FindFirst(RemoveAll(s, id), id) == None
  {
    RemoveAllRemoves(s, id);
  }

  /** With exactly one record carrying the id, delete shortens the list by one. */
  lemma RemoveAllSingle<T>(s: seq<Keyed<T>>, id: string)
    requires CountId(s, id) == 1
    ensures |RemoveAll(s, id)| == |s| - 1
  {
  }

  /** Adding under an id not yet used keeps the ids unique; update and
      delete never break uniqueness. */
  lemma AppendKeepsUnique<T>(s: seq<Keyed<T>>, id: string, data: T)
    requires UniqueIds(s) && !HasId(s, id)
    ensures UniqueIds(Append(s, id, data))
  {
    var r := Append(s, id, data);
    forall i, j | 0 <= i < j < |r| ensures r[i].id != r[j].id {
      if j == |s| {
        assert r[i] == s[i];
      } else {
        assert r[i] == s[i] && r[j] == s[j];
      }
    }
  }

  lemma ReplaceAllKeepsUnique<T>(s: seq<Keyed<T>>, rec: Keyed<T>)
    requires UniqueIds(s)
    ensures UniqueIds(ReplaceAll(s, rec))
  {
    var r := ReplaceAll(s, rec);
    forall i, j | 0 <= i < j < |r| ensures r[i].id != r[j].id {
      assert s[i].id != s[j].id;
    }
  }

  /** The tail of a list with distinct ids has distinct ids, none of them
      the head's. */
  lemma UniqueTail<T>(s: seq<Keyed<T>>)
    requires s != [] && UniqueIds(s)
    ensures UniqueIds(s[1..])
    ensures forall x :: x in s[1..] ==> x.id != s[0].id
  {
    forall i, j | 0 <= i < j < |s[1..]| ensures s[1..][i].id != s[1..][j].id {
      assert s[1..][i] == s[i + 1] && s[1..][j] == s[j + 1];
    }
    forall x | x in s[1..] ensures x.id != s[0].id {
      var k :| 0 <= k < |s[1..]| && s[1..][k] == x;
      assert s[k + 1] == x;
    }
  }

  /** Putting a record before a list with distinct ids, none of them its
      own, keeps the ids distinct. */
  lemma UniqueCons<T>(x: Keyed<T>, t: seq<Keyed<T>>)
    requires UniqueIds(t)
    requires forall i :: 0 <= i < |t| ==> t[i].id != x.id
    ensures UniqueIds([x] + t)
  {
    var r := [x] + t;
    forall i, j | 0 <= i < j < |r| ensures r[i].id != r[j].id {
      assert r[j] == t[j - 1];
      if i > 0 {
        assert r[i] == t[i - 1];
      }
    }
  }

  lemma {:induction false} RemoveAllKeepsUnique<T>(s: seq<Keyed<T>>, id: string)
    requires UniqueIds(s)
    ensures UniqueIds(RemoveAll(s, id))
  {
    if s != [] {
      UniqueTail(s);
      RemoveAllKeepsUnique(s[1..], id);
      if s[0].id != id {
        var t := RemoveAll(s[1..], id);
        forall i | 0 <= i < |t| ensures t[i].id != s[0].id {
          assert t[i] in s[1..];
        }
        UniqueCons(s[0], t);
      }
    }
  }
}
