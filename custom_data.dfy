/**
 * The custom data of an item instance (`ItemInst::m_customdata`): a
 * `std::map<std::string, std::string>`, modelled as the list of its entries in
 * ascending key order, and its `^`-separated serialisation.
 */
module CustomData {
  import opened Wrappers

  /** `std::string` ordering: lexicographic by character code, a proper prefix first. */
  predicate Less(a: string, b: string)
  {
    if |b| == 0 then false
    else if |a| == 0 then true
    else if a[0] != b[0] then a[0] < b[0]
    else Less(a[1..], b[1..])
  }

  lemma {:induction false} LessIrreflexive(a: string)
    ensures !Less(a, a)
  {
    if |a| > 0 {
      LessIrreflexive(a[1..]);
    }
  }

  lemma {:induction false} LessTransitive(a: string, b: string, c: string)
    requires Less(a, b) && Less(b, c)
    ensures Less(a, c)
  {
    if |a| > 0 && a[0] == b[0] && b[0] == c[0] {
      LessTransitive(a[1..], b[1..], c[1..]);
    }
  }

  lemma {:induction false} LessTotal(a: string, b: string)
    requires a != b
    ensures Less(a, b) || Less(b, a)
  {
    if |a| > 0 && |b| > 0 && a[0] == b[0] {
      assert a == [a[0]] + a[1..] && b == [b[0]] + b[1..];
      LessTotal(a[1..], b[1..]);
    }
  }

  type Entry = (string, string)

  predicate Sorted(d: seq<Entry>)
  {
    forall i, j | 0 <= i < j < |d| :: Less(d[i].0, d[j].0)
  }

  /** A custom-data map: its entries in strictly ascending key order. */
  type Dict = d: seq<Entry> | Sorted(d) witness []

  /** The map a list of entries denotes; an earlier entry wins over a later one. */
  function AsMap(d: seq<Entry>): (m: map<string, string>)
    ensures forall j | 0 <= j < |d| :: d[j].0 in m
  {
    if |d| == 0 then map[]
    else
      var m' := AsMap(d[1..]);
      assert forall j | 1 <= j < |d| :: d[j].0 == d[1..][j - 1].0;
      m'[d[0].0 := d[0].1]
  }

  /** Every key of the map is above `lo` when every listed key is. */
  lemma {:induction false} KeysAbove(d: seq<Entry>, lo: string)
    requires forall j | 0 <= j < |d| :: Less(lo, d[j].0)
    ensures forall x | x in AsMap(d) :: Less(lo, x)
  {
    if |d| > 0 {
      assert forall j | 0 <= j < |d| - 1 :: d[1..][j] == d[j + 1];
      KeysAbove(d[1..], lo);
    }
  }

  /** The head key of a sorted list does not occur in its tail. */
  lemma HeadNotInTail(d: Dict)
    requires |d| > 0
    ensures d[0].0 !in AsMap(d[1..])
  {
    assert forall j | 0 <= j < |d| - 1 :: d[1..][j] == d[j + 1];
    KeysAbove(d[1..], d[0].0);
    LessIrreflexive(d[0].0);
  }

  /** `m_customdata.find(identifier)`. */
  function Find(d: seq<Entry>, k: string): (r: Option<string>)
    ensures r.Some? <==> k in AsMap(d)
    ensures r.Some? ==> r.value == AsMap(d)[k]
  {
    if |d| == 0 then None
    else if d[0].0 == k then Some(d[0].1)
    else Find(d[1..], k)
  }


  /** `ItemInst::GetCustomData`: the stored value, or the empty string. */
  function GetCustomData(d: Dict, k: string): (r: string)
    ensures k in AsMap(d) ==> r == AsMap(d)[k]
    ensures k !in AsMap(d) ==> r == ""
  {
    match Find(d, k)
    case Some(v) => v
    case None => ""
  }

  /** `ItemInst::DeleteCustomData`: erases the entry for `k` if there is one. */
  function DeleteCustomData(d: Dict, k: string): (r: Dict)
    ensures AsMap(r) == AsMap(d) - {k}
    ensures |r| <= |d|
  {
    if |d| == 0 then d
    else if d[0].0 == k then
      HeadNotInTail(d);
      assert forall i, j | 0 <= i < j < |d| - 1 :: d[1..][i] == d[i + 1] && d[1..][j] == d[j + 1];
      d[1..]
    else
      var tail: Dict := (
        assert forall i, j | 0 <= i < j < |d| - 1 :: d[1..][i] == d[i + 1] && d[1..][j] == d[j + 1];
        d[1..]);
      var rest := DeleteCustomData(tail, k);
      IsAboveHead(d, rest);
      [d[0]] + rest
  }

  /** A list whose keys come from the tail of a sorted list can follow its head. */
  lemma IsAboveHead(d: Dict, rest: Dict)
    requires |d| > 0
    requires forall x | x in AsMap(rest) :: x in AsMap(d[1..])
    ensures Sorted([d[0]] + rest)
  {
    assert forall j | 0 <= j < |d| - 1 :: d[1..][j] == d[j + 1];
    KeysAbove(d[1..], d[0].0);
    forall i, j | 0 <= i < j < |rest| + 1
      ensures Less(([d[0]] + rest)[i].0, ([d[0]] + rest)[j].0)
    {
      if i == 0 {
        assert rest[j - 1].0 in AsMap(rest);
      } else {
        assert ([d[0]] + rest)[i] == rest[i - 1] && ([d[0]] + rest)[j] == rest[j - 1];
      }
    }
  }

  /** Inserts an entry for a key that is not yet present, at its ordered position. */
  function Insert(d: Dict, k: string, v: string): (r: Dict)
    requires k !in AsMap(d)
    ensures AsMap(r) == AsMap(d)[k := v]
  {
    if |d| == 0 then [(k, v)]
    else if Less(k, d[0].0) then
      forall j | 1 <= j < |d| ensures Less(k, d[j].0) {
        LessTransitive(k, d[0].0, d[j].0);
      }
      KeysAbove(d, k);
      PrependBelow((k, v), d);
      var r: Dict := [(k, v)] + d;
      assert r[1..] == d;
      r
    else
      TailSorted(d);
      var tail: Dict := d[1..];
      assert d[0].0 != k;
      LessTotal(k, d[0].0);
      var rest := Insert(tail, k, v);
      KeysAbove(tail, d[0].0);
      PrependBelow(d[0], rest);
      var r: Dict := [d[0]] + rest;
      assert r[1..] == rest;
      r
  }

  /** The tail of a sorted list is sorted. */
  lemma TailSorted(d: Dict)
    requires |d| > 0
    ensures Sorted(d[1..])
  {
    assert forall i, j | 0 <= i < j < |d| - 1 :: d[1..][i] == d[i + 1] && d[1..][j] == d[j + 1];
  }

  /** An entry below every key of a sorted list can go in front of it. */
  lemma PrependBelow(h: Entry, d: Dict)
    requires forall x | x in AsMap(d) :: Less(h.0, x)
    ensures Sorted([h] + d)
  {
    forall i, j | 0 <= i < j < |d| + 1
      ensures Less(([h] + d)[i].0, ([h] + d)[j].0)
    {
      if i == 0 {
        assert d[j - 1].0 in AsMap(d);
      } else {
        assert ([h] + d)[i] == d[i - 1] && ([h] + d)[j] == d[j - 1];
      }
    }
  }

  /** `ItemInst::SetCustomData(identifier, std::string)`: delete, then store. */
  function SetCustomData(d: Dict, k: string, v: string): (r: Dict)
    ensures AsMap(r) == AsMap(d)[k := v]
  {
    Insert(DeleteCustomData(d, k), k, v)
  }

  /** Reading back a key just set gives the value; every other key keeps its value. */
  lemma GetAfterSet(d: Dict, k: string, v: string, other: string)
    requires other != k
    ensures GetCustomData(SetCustomData(d, k, v), k) == v
    ensures GetCustomData(SetCustomData(d, k, v), other) == GetCustomData(d, other)
  {
  }

  /** A deleted key reads back as the empty string. */
  lemma GetAfterDelete(d: Dict, k: string)
    ensures GetCustomData(DeleteCustomData(d, k), k) == ""
  {
  }

  // ---------------------------------------------------------------------------
  // Serialisation

  /** One entry as the serialiser writes it: key, `^`, value, `^`. */
  function EntryText(e: Entry): string
  {
    e.0 + "^" + e.1 + "^"
  }

  /** The serialisation: the entries in order, with one more `^` between neighbours. */
  function Joined(d: seq<Entry>): string
  {
    if |d| == 0 then ""
    else if |d| == 1 then EntryText(d[0])
    else Joined(d[..|d| - 1]) + "^" + EntryText(d[|d| - 1])
  }

  /** `ItemInst::GetCustomDataString`. */
  method GetCustomDataString(d: Dict) returns (s: string)
    ensures s == Joined(d)
  {
    s := "";
    var i := 0;
    while i < |d|
      invariant 0 <= i <= |d|
      invariant s == Joined(d[..i])
      invariant |s| > 0 <==> i > 0
    {
      assert d[..i + 1][..i] == d[..i];
      if |s| > 0 {
        s := s + "^";
      }
      s := s + d[i].0;
      s := s + "^";
      s := s + d[i].1;
      i := i + 1;
      if |s| > 0 {
        s := s + "^";
      }
    }
    assert d[..|d|] == d;
  }

  /** The `^`-free pieces of `s`, in order (empty pieces included). */
  function Split(s: string): (r: seq<string>)
    ensures |r| > 0
  {
    if |s| == 0 then [""]
    else if s[0] == '^' then [""] + Split(s[1..])
    else
      var t := Split(s[1..]);
      [[s[0]] + t[0]] + t[1..]
  }

  lemma {:induction false} SplitPlain(w: string)
    requires '^' !in w
    ensures Split(w) == [w]
  {
    if |w| > 0 {
      assert w[1..] == w[1..] && forall c | c in w[1..] :: c in w;
      SplitPlain(w[1..]);
      assert [w[0]] + w[1..] == w;
    }
  }

  lemma {:induction false} SplitConcat(x: string, y: string)
    ensures Split(x + "^" + y) == Split(x) + Split(y)
  {
    if |x| == 0 {
      assert x + "^" + y == "^" + y;
      assert ("^" + y)[1..] == y;
    } else {
      assert (x + "^" + y)[0] == x[0];
      assert (x + "^" + y)[1..] == x[1..] + "^" + y;
      SplitConcat(x[1..], y);
      if x[0] != '^' {
        var t := Split(x[1..]);
        assert Split(x[1..] + "^" + y) == t + Split(y);
        assert (t + Split(y))[0] == t[0];
        assert (t + Split(y))[1..] == t[1..] + Split(y);
      }
    }
  }

  /** The pieces of a well-formed serialisation: key, value and an empty piece per entry. */
  function Tokens(d: seq<Entry>): seq<string>
  {
    if |d| == 0 then [] else Tokens(d[..|d| - 1]) + [d[|d| - 1].0, d[|d| - 1].1, ""]
  }

  /** Reads the entries back from consecutive key/value/empty triples. */
  function Pairs(t: seq<string>): seq<Entry>
  {
    if |t| < 3 then [] else Pairs(t[..|t| - 3]) + [(t[|t| - 3], t[|t| - 2])]
  }

  /** The parser of the serialisation. */
  function Decode(s: string): seq<Entry>
  {
    if s == "" then [] else Pairs(Split(s))
  }

  predicate NoCaret(d: seq<Entry>)
  {
    forall j | 0 <= j < |d| :: '^' !in d[j].0 && '^' !in d[j].1
  }

  lemma {:induction false} SplitJoined(d: seq<Entry>)
    requires |d| > 0 && NoCaret(d)
    ensures Split(Joined(d)) == Tokens(d)
  {
    var e := d[|d| - 1];
    SplitPlain(e.0);
    SplitPlain(e.1);
    SplitConcat(e.1, "");
    assert e.1 + "^" + "" == e.1 + "^";
    assert Split("") == [""];
    SplitConcat(e.0, e.1 + "^");
    assert EntryText(e) == e.0 + "^" + (e.1 + "^");
    assert Split(EntryText(e)) == [e.0, e.1, ""];
    var init := d[..|d| - 1];
    if |d| == 1 {
      assert Tokens(init) == [];
    } else {
      assert forall j | 0 <= j < |init| :: init[j] == d[j];
      SplitJoined(init);
      SplitConcat(Joined(init), EntryText(e));
    }
  }

  lemma {:induction false} PairsTokens(d: seq<Entry>)
    ensures Pairs(Tokens(d)) == d
  {
    if |d| > 0 {
      var t := Tokens(d);
      assert t[..|t| - 3] == Tokens(d[..|d| - 1]);
      PairsTokens(d[..|d| - 1]);
      assert d == d[..|d| - 1] + [d[|d| - 1]];
    }
  }

  /** Without `^` in keys and values, the serialisation is read back exactly. */
  lemma DecodeJoined(d: Dict)
    requires NoCaret(d)
    ensures Decode(Joined(d)) == d
  {
    if |d| > 0 {
      SplitJoined(d);
      PairsTokens(d);
      assert |Joined(d)| > 0;
    }
  }

  /** The format has no escaping: a `^` inside a key or value can mimic a separator. */
  lemma NoEscaping()
    ensures Joined([("a^b", "c")]) == Joined([("a", "b^c")])
  {
  }
}
