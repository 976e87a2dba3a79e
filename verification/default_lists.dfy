/**
 * A list of records with one `isDefault` flag, as the payment-method and
 * address screens keep it: "set default" maps every record's flag to
 * `record.id == id`, and "delete" filters out every record with that id.
 */
module DefaultLists {
  import opened Seqs

  datatype Entry<D> = Entry(id: string, isDefault: bool, details: D)

  predicate HasId<D>(s: seq<Entry<D>>, id: string) {
    exists i | 0 <= i < |s| :: s[i].id == id
  }

  ghost predicate UniqueIds<D>(s: seq<Entry<D>>) {
    forall i, j :: 0 <= i < j < |s| ==> s[i].id != s[j].id
  }

  /** The number of records flagged as default. */
  ghost function DefaultCount<D>(s: seq<Entry<D>>): nat {
    if s == [] then 0 else (if s[0].isDefault then 1 else 0) + DefaultCount(s[1..])
  }

  /** `list.map(r => ({...r, isDefault: r.id === id}))`. */
  function SetDefault<D>(s: seq<Entry<D>>, id: string): (r: seq<Entry<D>>)
    ensures |r| == |s|
    ensures forall i :: 0 <= i < |s| ==> r[i] == s[i].(isDefault := s[i].id == id)
  {
    if s == [] then [] else [s[0].(isDefault := s[0].id == id)] + SetDefault(s[1..], id)
  }

  /** `list.filter(r => r.id !== id)`. */
  function Delete<D>(s: seq<Entry<D>>, id: string): (r: seq<Entry<D>>)
    ensures forall i :: 0 <= i < |r| ==> r[i].id != id && r[i] in s
    ensures forall i :: 0 <= i < |s| && s[i].id != id ==> s[i] in r
    ensures IsSubsequence(r, s)
  {
    Filter(s, (e: Entry<D>) => e.id != id)
  }

  /** With unique ids and `id` present, exactly one record is default afterwards, and it is the one with `id`. */
  lemma {:induction false} SetDefaultExactlyOne<D>(s: seq<Entry<D>>, id: string)
    requires UniqueIds(s) && HasId(s, id)
    ensures DefaultCount(SetDefault(s, id)) == 1
  {
    var r := SetDefault(s, id);
    var tail := s[1..];
    assert r[1..] == SetDefault(tail, id);
    assert UniqueIds(tail) by {
      forall i, j | 0 <= i < j < |tail|
        ensures tail[i].id != tail[j].id
      {
        assert tail[i] == s[i + 1] && tail[j] == s[j + 1];
      }
    }
    if s[0].id == id {
      assert !HasId(tail, id) by {
        forall i | 0 <= i < |tail|
          ensures tail[i].id != id
        {
          assert tail[i] == s[i + 1];
        }
      }
      SetDefaultAbsent(tail, id);
    } else {
      var i :| 0 <= i < |s| && s[i].id == id;
      assert tail[i - 1].id == id;
      SetDefaultExactlyOne(tail, id);
    }
  }

  /** With `id` absent, no record is default afterwards. */
  lemma {:induction false} SetDefaultAbsent<D>(s: seq<Entry<D>>, id: string)
    requires !HasId(s, id)
    ensures DefaultCount(SetDefault(s, id)) == 0
  {
    if s != [] {
      assert SetDefault(s, id)[1..] == SetDefault(s[1..], id);
      assert !HasId(s[1..], id) by {
        forall i | 0 <= i < |s[1..]|
          ensures s[1..][i].id != id
        {
          assert s[1..][i] == s[i + 1];
        }
      }
      SetDefaultAbsent(s[1..], id);
    }
  }

  /** Setting the same default twice is the same as setting it once. */
  lemma SetDefaultIdempotent<D>(s: seq<Entry<D>>, id: string)
    ensures SetDefault(SetDefault(s, id), id) == SetDefault(s, id)
  {
  }

  /** Deleting an id that is not there leaves the list as it was. */
  lemma DeleteAbsent<D>(s: seq<Entry<D>>, id: string)
    requires !HasId(s, id)
    ensures Delete(s, id) == s
  {
    FilterAll(s, (e: Entry<D>) => e.id != id);
  }

  /**
   * Delete keeps every other record as many times as it occurred, and drops
   * every record with `id`.
   */
  lemma DeleteCounts<D>(s: seq<Entry<D>>, id: string, x: Entry<D>)
    ensures Count(Delete(s, id), x) == if x.id != id then Count(s, x) else 0
  {
    FilterCount(s, (e: Entry<D>) => e.id != id, x);
  }

  /**
   * When the only defaults carry `id` (as after `SetDefault(s, id)`), deleting
   * `id` leaves no default: no other record is promoted.
   */
  lemma DeleteDefaultLeavesNone<D>(s: seq<Entry<D>>, id: string)
    requires forall i :: 0 <= i < |s| && s[i].isDefault ==> s[i].id == id
    ensures forall i :: 0 <= i < |Delete(s, id)| ==> !Delete(s, id)[i].isDefault
  {
  }
}
