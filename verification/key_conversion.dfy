/** Recursive key conversion of request bodies, with opaque subtrees left alone. */
module KeyConversion {
  import opened Wrappers
  import opened Ascii
  import opened Casing

  /** A JSON value; an object lists its entries in insertion order. */
  datatype Json = Object(entries: seq<(string, Json)>) | Array(items: seq<Json>) | Scalar(value: int)

  /** `SKIP_CONVERSION_KEYS` */
  predicate Skipped(key: string) {
    key in ["payload", "result", "metadata", "tags", "settings", "details", "extra",
            "payloadTemplate", "payload_template", "customLimits", "custom_limits"]
  }

  predicate IsOpaque(key: string) {
    Skipped(key) || Skipped(ToSnake(key))
  }

  /** `d[k] = v` on a dictionary that keeps insertion order. */
  function Put(d: seq<(string, Json)>, k: string, v: Json): seq<(string, Json)> {
    if d == [] then [(k, v)]
    else if d[0].0 == k then [(k, v)] + d[1..]
    else [d[0]] + Put(d[1..], k, v)
  }

  function Get(d: seq<(string, Json)>, k: string): Option<Json> {
    if d == [] then None else if d[0].0 == k then Some(d[0].1) else Get(d[1..], k)
  }

  predicate HasKey(d: seq<(string, Json)>, k: string) {
    exists i :: 0 <= i < |d| && d[i].0 == k
  }

  /** A dictionary has each key once. */
  predicate DistinctKeys(d: seq<(string, Json)>) {
    forall i, j :: 0 <= i < j < |d| ==> d[i].0 != d[j].0
  }

  /** `convert_keys(data, to_snake_case, SKIP_CONVERSION_KEYS)` */
  function Converted(data: Json): Json
    decreases data, 1
  {
    match data
    case Object(entries) => Object(ConvertedEntries(entries))
    case Array(items) => Array(ConvertedItems(items))
    case Scalar(_) => data
  }

  function ConvertedEntries(es: seq<(string, Json)>): seq<(string, Json)>
    decreases es, 0
  {
    if es == [] then []
    else
      var e := es[|es| - 1];
      assert e in es;
      Put(ConvertedEntries(es[..|es| - 1]), ConvertedEntry(e).0, ConvertedEntry(e).1)
  }

  function ConvertedEntry(e: (string, Json)): (string, Json)
    decreases e, 0
  {
    assert e.1 < e;
    (ToSnake(e.0), if IsOpaque(e.0) then e.1 else Converted(e.1))
  }

  function ConvertedItems(items: seq<Json>): seq<Json>
    decreases items, 0
  {
    if items == [] then [] else ConvertedItems(items[..|items| - 1]) + [Converted(items[|items| - 1])]
  }

  /** The loop that fills the result dictionary key by key. */
  method ConvertKeys(data: Json) returns (r: Json)
    ensures r == Converted(data) && IsRight(data, r)
    decreases data
  {
    match data {
      case Object(entries) =>
        var result: seq<(string, Json)> := [];
        for i := 0 to |entries|
          invariant result == ConvertedEntries(entries[..i])
        {
          var (key, value) := entries[i];
          var newKey := ToSnake(key);
          assert entries[..i + 1][..i] == entries[..i];
          if Skipped(key) || Skipped(newKey) {
            result := Put(result, newKey, value);
          } else {
            var converted := ConvertKeys(value);
            result := Put(result, newKey, converted);
          }
        }
        assert entries[..|entries|] == entries;
        r := Object(result);
      case Array(items) =>
        var result: seq<Json> := [];
        for i := 0 to |items|
          invariant result == ConvertedItems(items[..i])
        {
          assert items[..i + 1][..i] == items[..i];
          var converted := ConvertKeys(items[i]);
          result := result + [converted];
        }
        assert items[..|items|] == items;
        r := Array(result);
      case Scalar(_) =>
        r := data;
    }
    ResultIsRight(data);
  }

  // ---- What the dictionary holds ------------------------------------------------------------------------

  lemma {:induction false} GetAfterPut(d: seq<(string, Json)>, k: string, v: Json, q: string)
    ensures Get(Put(d, k, v), q) == if q == k then Some(v) else Get(d, q)
  {
    if d != [] && d[0].0 != k {
      GetAfterPut(d[1..], k, v, q);
      assert ([d[0]] + Put(d[1..], k, v))[1..] == Put(d[1..], k, v);
    } else if d != [] {
      assert ([(k, v)] + d[1..])[1..] == d[1..];
    }
  }

  /** The entries with their keys and values converted, before collisions are resolved. */
  function Renamed(es: seq<(string, Json)>): (r: seq<(string, Json)>)
    ensures |r| == |es|
  {
    if es == [] then [] else Renamed(es[..|es| - 1]) + [ConvertedEntry(es[|es| - 1])]
  }

  lemma {:induction false} RenamedAt(es: seq<(string, Json)>, i: nat)
    requires i < |es|
    ensures Renamed(es)[i] == ConvertedEntry(es[i])
    decreases |es|
  {
    if i < |es| - 1 { RenamedAt(es[..|es| - 1], i); }
  }

  function LastWith(ps: seq<(string, Json)>, k: string): Option<Json> {
    if ps == [] then None
    else if ps[|ps| - 1].0 == k then Some(ps[|ps| - 1].1)
    else LastWith(ps[..|ps| - 1], k)
  }

  /** The last entry whose key converts to `k` decides its value: verbatim when opaque, else converted. */
  lemma {:induction false} LastEntryWins(es: seq<(string, Json)>, k: string)
    ensures Get(ConvertedEntries(es), k) == LastWith(Renamed(es), k)
    decreases |es|
  {
    if es != [] {
      var n := |es| - 1;
      var e := ConvertedEntry(es[n]);
      LastEntryWins(es[..n], k);
      assert Renamed(es)[..n] == Renamed(es[..n]);
      GetAfterPut(ConvertedEntries(es[..n]), e.0, e.1, k);
    }
  }

  lemma {:induction false} LastPlace(ps: seq<(string, Json)>, i: nat) returns (last: nat)
    requires i < |ps|
    ensures i <= last < |ps| && ps[last].0 == ps[i].0
    ensures forall j :: last < j < |ps| ==> ps[j].0 != ps[i].0
    ensures LastWith(ps, ps[i].0) == Some(ps[last].1)
    decreases |ps|
  {
    last := |ps| - 1;
    if ps[last].0 != ps[i].0 {
      last := LastPlace(ps[..last], i);
    }
  }

  /**
   The value under an opaque key is sent as it is if and only if the last entry with the
   same converted name carries that value: itself, when no later key converts to the name.
   */
  lemma OpaqueValueUnchanged(es: seq<(string, Json)>, i: nat) returns (last: nat)
    requires i < |es| && IsOpaque(es[i].0)
    ensures i <= last < |es| && ToSnake(es[last].0) == ToSnake(es[i].0)
    ensures forall j :: last < j < |es| ==> ToSnake(es[j].0) != ToSnake(es[i].0)
    ensures Get(ConvertedEntries(es), ToSnake(es[i].0)) == Some(es[i].1) <==> ConvertedEntry(es[last]).1 == es[i].1
    ensures last == i ==> ConvertedEntry(es[last]).1 == es[i].1
  {
    last := LastPlace(Renamed(es), i);
    RenamedAt(es, i);
    RenamedAt(es, last);
    LastEntryWins(es, ToSnake(es[i].0));
    forall j | last < j < |es| ensures ToSnake(es[j].0) != ToSnake(es[i].0) {
      RenamedAt(es, j);
    }
  }

  // ---- Idempotence -------------------------------------------------------------------------------------------

  lemma SnakeOfTwoWords(first: string, second: string)
    requires IsWord(first) && IsWord(second)
    ensures ToSnake(first + Title(second)) == first + "_" + second
  {
    SnakeAfterWord(first, Title(second));
    SnakeOfLastTitle(first[|first| - 1], second);
  }

  predicate InTwoWords(k: string, first: string, second: string) {
    IsWord(first) && IsWord(second) && k == first + [UpperChar(second[0])] + second[1..]
  }

  lemma SnakeOfKey(k: string, first: string, second: string)
    requires NoUpper(k) || InTwoWords(k, first, second)
    ensures ToSnake(k) == if NoUpper(k) then k else first + "_" + second
  {
    if NoUpper(k) {
      SnakeFixedPoints(k);
    } else {
      TitleOfWord(second);
      assert k == first + Title(second);
      SnakeOfTwoWords(first, second);
    }
  }

  /** The only two opaque keys with a capital are listed in snake case as well. */
  lemma SkipShape(k: string) returns (first: string, second: string)
    requires Skipped(k)
    ensures NoUpper(k) || (InTwoWords(k, first, second) && Skipped(first + "_" + second))
  {
    first, second := "payload", "template";
    if k == "customLimits" { first, second := "custom", "limits"; }
    if k == "payloadTemplate" {
      assert first + "_" + second == "payload_template";
    } else if k == "customLimits" {
      assert first + "_" + second == "custom_limits";
    }
  }

  /** The opaque keys stay opaque when converted. */
  lemma SkipClosed(k: string)
    requires Skipped(k)
    ensures Skipped(ToSnake(k))
  {
    var first, second := SkipShape(k);
    SnakeOfKey(k, first, second);
  }

  /** A dictionary that converting again leaves alone. */
  ghost predicate Settled(d: seq<(string, Json)>) {
    DistinctKeys(d) && AllSettled(d)
  }

  ghost predicate AllSettled(d: seq<(string, Json)>) {
    forall i :: 0 <= i < |d| ==> EntrySettled(d[i])
  }

  ghost predicate EntrySettled(e: (string, Json)) {
    ConvertedEntry(e) == e
  }

  lemma {:induction false} PutNew(d: seq<(string, Json)>, k: string, v: Json)
    requires forall i :: 0 <= i < |d| ==> d[i].0 != k
    ensures Put(d, k, v) == d + [(k, v)]
  {
    if d != [] {
      PutNew(d[1..], k, v);
      assert d == [d[0]] + d[1..];
    }
  }

  lemma {:induction false} PutKeepsDistinct(d: seq<(string, Json)>, k: string, v: Json)
    requires DistinctKeys(d)
    ensures DistinctKeys(Put(d, k, v))
    ensures forall q :: HasKey(Put(d, k, v), q) ==> q == k || HasKey(d, q)
  {
    if d != [] && d[0].0 != k {
      var rest := Put(d[1..], k, v);
      PutKeepsDistinct(d[1..], k, v);
      forall i | 0 <= i < |rest| ensures rest[i].0 == k || exists j :: 1 <= j < |d| && d[j].0 == rest[i].0 {
        assert HasKey(rest, rest[i].0);
      }
    }
  }

  lemma {:induction false} PutIsOneOf(d: seq<(string, Json)>, k: string, v: Json, i: nat)
    requires i < |Put(d, k, v)|
    ensures Put(d, k, v)[i] == (k, v) || Put(d, k, v)[i] in d
  {
    if d != [] && d[0].0 != k && i > 0 { PutIsOneOf(d[1..], k, v, i - 1); }
  }

  lemma PutKeepsSettled(d: seq<(string, Json)>, k: string, v: Json)
    requires AllSettled(d) && EntrySettled((k, v))
    ensures AllSettled(Put(d, k, v))
  {
    forall i | 0 <= i < |Put(d, k, v)| ensures EntrySettled(Put(d, k, v)[i]) {
      PutIsOneOf(d, k, v, i);
    }
  }

  lemma SettledStep(front: seq<(string, Json)>, e: (string, Json))
    requires ConvertedEntries(front) == front && EntrySettled(e)
    requires forall i :: 0 <= i < |front| ==> front[i].0 != e.0
    ensures ConvertedEntries(front + [e]) == front + [e]
  {
    PutNew(front, e.0, e.1);
    assert (front + [e])[..|front|] == front;
  }

  lemma FrontSettled(d: seq<(string, Json)>)
    requires AllSettled(d) && d != []
    ensures AllSettled(d[..|d| - 1]) && EntrySettled(d[|d| - 1])
  {
    var front := d[..|d| - 1];
    forall i | 0 <= i < |front|
      ensures EntrySettled(front[i])
    {
      assert front[i] == d[i];
      assert EntrySettled(d[i]);
    }
  }

  lemma FrontDistinct(d: seq<(string, Json)>)
    requires DistinctKeys(d) && d != []
    ensures var n := |d| - 1;
      d == d[..n] + [d[n]] && DistinctKeys(d[..n]) && forall i :: 0 <= i < n ==> d[..n][i].0 != d[n].0
  {
  }

  lemma {:induction false} SettledIsFixed(d: seq<(string, Json)>)
    requires Settled(d)
    ensures ConvertedEntries(d) == d
    decreases |d|
  {
    if d != [] {
      var n := |d| - 1;
      FrontSettled(d);
      FrontDistinct(d);
      SettledIsFixed(d[..n]);
      SettledStep(d[..n], d[n]);
    }
  }

  lemma {:induction false} EntrySettles(e: (string, Json))
    ensures EntrySettled(ConvertedEntry(e))
    decreases e, 0
  {
    assert e.1 < e;
    SnakeFixedPoints(e.0);
    if Skipped(e.0) { SkipClosed(e.0); }
    if !IsOpaque(e.0) { ConversionIdempotent(e.1); }
  }

  lemma {:induction false} EntriesSettle(es: seq<(string, Json)>)
    ensures Settled(ConvertedEntries(es))
    decreases es, 0
  {
    if es != [] {
      var n := |es| - 1;
      assert es[n] in es;
      var e := ConvertedEntry(es[n]);
      EntriesSettle(es[..n]);
      EntrySettles(es[n]);
      PutKeepsSettled(ConvertedEntries(es[..n]), e.0, e.1);
      PutKeepsDistinct(ConvertedEntries(es[..n]), e.0, e.1);
    }
  }

  lemma {:induction false} ItemsIdempotent(items: seq<Json>)
    ensures ConvertedItems(ConvertedItems(items)) == ConvertedItems(items)
    decreases items, 0
  {
    if items != [] {
      var n := |items| - 1;
      ItemsIdempotent(items[..n]);
      ConversionIdempotent(items[n]);
      var front := ConvertedItems(items[..n]);
      assert (front + [Converted(items[n])])[..|front|] == front;
    }
  }

  /** `convert_request` is idempotent on every JSON tree, colliding keys included. */
  lemma {:induction false} ConversionIdempotent(data: Json)
    ensures Converted(Converted(data)) == Converted(data)
    decreases data, 1
  {
    match data {
      case Object(entries) =>
        EntriesSettle(entries);
        SettledIsFixed(ConvertedEntries(entries));
      case Array(items) => ItemsIdempotent(items);
      case Scalar(_) =>
    }
  }

  // ---- What a conversion is ------------------------------------------------------------------------------------

  /** The fields of the API, by their names on the wire, whose values belong to the user. */
  predicate IsProtected(name: string) {
    name in ["payload", "result", "metadata", "tags", "settings", "details", "extra", "payload_template", "custom_limits"]
  }

  lemma OpaqueIsProtected(key: string)
    ensures IsOpaque(key) <==> IsProtected(ToSnake(key))
  {
    SnakeFixedPoints(key);
    if Skipped(key) { SkipClosed(key); }
    if Skipped(ToSnake(key)) { SnakeNames(ToSnake(key)); }
  }

  lemma SnakeNames(name: string)
    requires Skipped(name) && NoUpper(name)
    ensures IsProtected(name)
  {
    assert IsUpper("payloadTemplate"[7]) && IsUpper("customLimits"[6]);
  }

  /** `i` is the last entry whose key becomes `name`. */
  predicate IsLast(es: seq<(string, Json)>, i: int, name: string) {
    && 0 <= i < |es| && ToSnake(es[i].0) == name
    && forall j :: i < j < |es| ==> ToSnake(es[j].0) != name
  }

  /**
   What `r` must be for `d`: scalars stay, arrays are converted item by item in place, and
   an object has each converted key once, with the value of the last entry of that name,
   left alone under a protected name and converted under any other.
   */
  ghost predicate IsConversion(d: Json, r: Json)
    decreases d
  {
    match d
    case Scalar(_) => r == d
    case Array(items) =>
      r.Array? && |r.items| == |items| && forall i :: 0 <= i < |items| ==> IsConversion(items[i], r.items[i])
    case Object(es) =>
      && r.Object? && DistinctKeys(r.entries)
      && (forall i :: 0 <= i < |es| ==> HasKey(r.entries, ToSnake(es[i].0)))
      && (forall j :: 0 <= j < |r.entries| ==>
            exists i ::
              && IsLast(es, i, r.entries[j].0)
              && if IsProtected(r.entries[j].0) then r.entries[j].1 == es[i].1 else IsConversion(es[i].1, r.entries[j].1))
  }

  /** No key that is reached without passing a protected name has a capital. */
  ghost predicate SnakeKeys(r: Json) {
    match r
    case Scalar(_) => true
    case Array(items) => forall i :: 0 <= i < |items| ==> SnakeKeys(items[i])
    case Object(es) => forall i :: 0 <= i < |es| ==> NoUpper(es[i].0) && (IsProtected(es[i].0) || SnakeKeys(es[i].1))
  }

  ghost predicate IsRight(d: Json, r: Json) {
    IsConversion(d, r) && SnakeKeys(r)
  }

  lemma {:induction false} ItemAt(items: seq<Json>, i: nat)
    requires i < |items|
    ensures |ConvertedItems(items)| == |items| && ConvertedItems(items)[i] == Converted(items[i])
    decreases |items|
  {
    var n := |items| - 1;
    if n > 0 { ItemAt(items[..n], if i < n then i else 0); }
  }

  lemma {:induction false} GetAt(d: seq<(string, Json)>, j: nat)
    requires DistinctKeys(d) && j < |d|
    ensures Get(d, d[j].0) == Some(d[j].1)
  {
    if j > 0 { GetAt(d[1..], j - 1); }
  }

  lemma {:induction false} GetHas(d: seq<(string, Json)>, k: string)
    ensures Get(d, k).Some? <==> HasKey(d, k)
  {
    if d != [] {
      GetHas(d[1..], k);
      if d[0].0 != k && HasKey(d, k) {
        var i :| 0 <= i < |d| && d[i].0 == k;
        assert d[1..][i - 1].0 == k;
      }
      if HasKey(d[1..], k) {
        var i :| 0 <= i < |d| - 1 && d[1..][i].0 == k;
        assert d[i + 1].0 == k;
      }
    }
  }

  lemma {:induction false} LastFound(ps: seq<(string, Json)>, k: string) returns (last: nat)
    requires LastWith(ps, k).Some?
    ensures last < |ps| && ps[last].0 == k && LastWith(ps, k) == Some(ps[last].1)
    ensures forall j :: last < j < |ps| ==> ps[j].0 != k
    decreases |ps|
  {
    last := |ps| - 1;
    if ps[last].0 != k { last := LastFound(ps[..last], k); }
  }

  /** The entry of the result at `j` is that of the last entry of its name. */
  lemma EntryOfLast(es: seq<(string, Json)>, j: nat) returns (i: nat)
    requires DistinctKeys(ConvertedEntries(es)) && j < |ConvertedEntries(es)|
    ensures IsLast(es, i, ConvertedEntries(es)[j].0) && ConvertedEntries(es)[j] == ConvertedEntry(es[i])
  {
    var d := ConvertedEntries(es);
    GetAt(d, j);
    LastEntryWins(es, d[j].0);
    i := LastFound(Renamed(es), d[j].0);
    RenamedAt(es, i);
    forall k | i < k < |es| ensures ToSnake(es[k].0) != d[j].0 { RenamedAt(es, k); }
  }

  lemma NameIsThere(es: seq<(string, Json)>, i: nat)
    requires i < |es|
    ensures HasKey(ConvertedEntries(es), ToSnake(es[i].0))
  {
    var last := LastPlace(Renamed(es), i);
    RenamedAt(es, i);
    LastEntryWins(es, ToSnake(es[i].0));
    GetHas(ConvertedEntries(es), ToSnake(es[i].0));
  }

  ghost predicate EntryRight(es: seq<(string, Json)>, i: int, e: (string, Json)) {
    && IsLast(es, i, e.0)
    && if IsProtected(e.0) then e.1 == es[i].1 else IsConversion(es[i].1, e.1)
  }

  lemma {:induction false} EntryIsRight(es: seq<(string, Json)>, data: Json, j: nat) returns (i: nat)
    requires data == Object(es) && j < |ConvertedEntries(es)| && DistinctKeys(ConvertedEntries(es))
    ensures var e := ConvertedEntries(es)[j];
      EntryRight(es, i, e) && NoUpper(e.0) && (IsProtected(e.0) || SnakeKeys(e.1))
    decreases data, 0
  {
    i := EntryOfLast(es, j);
    OpaqueIsProtected(es[i].0);
    SnakeFixedPoints(es[i].0);
    assert es[i] in es && es[i].1 < data;
    ConversionIsRight(es[i].1);
  }

  lemma {:induction false} ObjectIsConverted(es: seq<(string, Json)>, data: Json)
    requires data == Object(es)
    ensures IsConversion(data, Object(ConvertedEntries(es)))
    decreases data, 1
  {
    var d := ConvertedEntries(es);
    EntriesSettle(es);
    forall i | 0 <= i < |es| ensures HasKey(d, ToSnake(es[i].0)) { NameIsThere(es, i); }
    forall j | 0 <= j < |d|
      ensures exists i :: IsLast(es, i, d[j].0) && if IsProtected(d[j].0) then d[j].1 == es[i].1 else IsConversion(es[i].1, d[j].1)
    {
      var i := EntryIsRight(es, data, j);
    }
  }

  lemma {:induction false} ObjectIsSnake(es: seq<(string, Json)>, data: Json)
    requires data == Object(es)
    ensures SnakeKeys(Object(ConvertedEntries(es)))
    decreases data, 1
  {
    var d := ConvertedEntries(es);
    EntriesSettle(es);
    forall j | 0 <= j < |d| ensures NoUpper(d[j].0) && (IsProtected(d[j].0) || SnakeKeys(d[j].1)) {
      var i := EntryIsRight(es, data, j);
    }
  }

  lemma ResultIsRight(data: Json)
    ensures IsRight(data, Converted(data))
  {
    ConversionIsRight(data);
  }

  lemma {:induction false} ConversionIsRight(data: Json)
    ensures IsConversion(data, Converted(data)) && SnakeKeys(Converted(data))
    decreases data, 2
  {
    match data {
      case Object(es) =>
        ObjectIsConverted(es, data);
        ObjectIsSnake(es, data);
      case Array(items) =>
        forall i | 0 <= i < |items|
          ensures |ConvertedItems(items)| == |items|
          ensures IsConversion(items[i], ConvertedItems(items)[i]) && SnakeKeys(ConvertedItems(items)[i])
        {
          ItemAt(items, i);
          ConversionIsRight(items[i]);
        }
      case Scalar(_) =>
    }
  }
}
