/**
 Key-case conversion, on ASCII.  The two substitutions of `to_snake_case` are modelled as
 the regex engine runs them (leftmost match, greedy with backtracking, no overlap) and
 proved equal to one local rule.
 */
module Casing {
  import opened Ascii
  import opened Wrappers

  predicate IsLowerOrDigit(c: char) {
    IsLower(c) || '0' <= c <= '9'
  }

  predicate IsLetter(c: char) {
    IsLower(c) || IsUpper(c)
  }

  predicate AllLower(s: string) {
    forall i :: 0 <= i < |s| ==> IsLower(s[i])
  }

  predicate NoUpper(s: string) {
    forall i :: 0 <= i < |s| ==> !IsUpper(s[i])
  }

  // ---- The two substitutions ------------------------------------------------------------------------

  /** How far `[A-Z]+` reaches from the front. */
  function CapsRun(s: string): (n: nat)
    ensures n <= |s| && forall i :: 0 <= i < n ==> IsUpper(s[i])
    ensures n < |s| ==> !IsUpper(s[n])
  {
    if s == "" || !IsUpper(s[0]) then 0 else 1 + CapsRun(s[1..])
  }

  /** Give back one character at a time until `[A-Z][a-z]` follows; the length of group 1. */
  function GiveBack(s: string, n: nat): Option<nat>
    requires n <= |s|
  {
    if n == 0 then None
    else if n + 1 < |s| && IsUpper(s[n]) && IsLower(s[n + 1]) then Some(n)
    else GiveBack(s, n - 1)
  }

  /** `re.sub(r"([A-Z]+)([A-Z][a-z])", r"\1_\2", s)` */
  function SplitCaps(s: string): string {
    if s == "" then ""
    else match GiveBack(s, CapsRun(s))
      case None => [s[0]] + SplitCaps(s[1..])
      case Some(k) =>
        if k + 2 <= |s| then s[..k] + "_" + s[k..k + 2] + SplitCaps(s[k + 2..]) else s
  }

  /** `re.sub(r"([a-z\d])([A-Z])", r"\1_\2", s)` */
  function SplitWords(s: string): string {
    if s == "" then ""
    else if |s| > 1 && IsLowerOrDigit(s[0]) && IsUpper(s[1]) then [s[0], '_', s[1]] + SplitWords(s[2..])
    else [s[0]] + SplitWords(s[1..])
  }

  function ToSnake(s: string): string {
    Lower(SplitWords(SplitCaps(s)))
  }

  // ---- One local rule -------------------------------------------------------------------------------------

  predicate CapsBoundary(prev: char, s: string)
    requires s != ""
  {
    IsUpper(s[0]) && IsUpper(prev) && |s| > 1 && IsLower(s[1])
  }

  predicate WordBoundary(prev: char, s: string)
    requires s != ""
  {
    IsUpper(s[0]) && IsLowerOrDigit(prev)
  }

  /**
   A word starts at an upper-case letter that follows a lower-case letter or digit, or
   lies between an upper-case and a lower-case letter.  `prev` is the character before `s`.
   */
  predicate Boundary(prev: char, s: string)
    requires s != ""
  {
    WordBoundary(prev, s) || CapsBoundary(prev, s)
  }

  /** The rule in terms of the characters themselves. */
  lemma BoundaryByCharacters(prev: char, s: string)
    requires s != ""
    ensures Boundary(prev, s) <==>
      && 'A' <= s[0] <= 'Z'
      && ('a' <= prev <= 'z' || '0' <= prev <= '9' || ('A' <= prev <= 'Z' && |s| > 1 && 'a' <= s[1] <= 'z'))
  {
  }

  function MarkCaps(prev: char, s: string): string
    decreases |s|
  {
    if s == "" then ""
    else (if CapsBoundary(prev, s) then "_" else "") + [s[0]] + MarkCaps(s[0], s[1..])
  }

  function MarkWords(prev: char, s: string): string
    decreases |s|
  {
    if s == "" then ""
    else (if WordBoundary(prev, s) then "_" else "") + [s[0]] + MarkWords(s[0], s[1..])
  }

  /** An underscore before every boundary; nothing precedes the first character. */
  function Mark(prev: char, s: string): string
    decreases |s|
  {
    if s == "" then ""
    else (if Boundary(prev, s) then "_" else "") + [s[0]] + Mark(s[0], s[1..])
  }

  lemma {:induction false} GiveBackFinds(s: string, n: nat)
    requires n <= |s| && forall i :: 0 <= i < n ==> IsUpper(s[i])
    ensures GiveBack(s, n).Some? ==>
      var k := GiveBack(s, n).value; 0 < k <= n && k + 1 < |s| && IsUpper(s[k]) && IsLower(s[k + 1])
    ensures GiveBack(s, n).None? ==>
      forall k :: 0 < k <= n && k + 1 < |s| ==> !(IsUpper(s[k]) && IsLower(s[k + 1]))
  {
    if n > 0 { GiveBackFinds(s, n - 1); }
  }

  /** Through a run of capitals that ends in a new word. */
  lemma {:induction false} MarkCapsRun(prev: char, s: string, k: nat)
    requires 0 < k && k + 1 < |s| && (forall i :: 0 <= i <= k ==> IsUpper(s[i])) && IsLower(s[k + 1])
    ensures MarkCaps(prev, s) == s[..k] + "_" + s[k..k + 2] + MarkCaps(s[k + 1], s[k + 2..])
    decreases k
  {
    if k == 1 {
      assert s[1..][1..] == s[2..] && s[2..][1..] == s[3..];
      assert MarkCaps(s[0], s[1..]) == "_" + [s[1]] + MarkCaps(s[1], s[2..]);
      assert MarkCaps(s[1], s[2..]) == [s[2]] + MarkCaps(s[2], s[3..]);
      assert s[1..3] == [s[1]] + [s[2]] && s[..1] == [s[0]];
    } else {
      MarkCapsRun(s[0], s[1..], k - 1);
      assert s[1..][..k - 1] == s[1..k] && s[1..][k - 1..k + 1] == s[k..k + 2] && s[1..][k + 1..] == s[k + 2..];
      assert s[..k] == [s[0]] + s[1..k];
    }
  }

  lemma {:induction false} SplitCapsIsMark(prev: char, s: string)
    requires s != "" ==> !CapsBoundary(prev, s)
    ensures SplitCaps(s) == MarkCaps(prev, s)
    decreases |s|
  {
    if s != "" {
      var n := CapsRun(s);
      GiveBackFinds(s, n);
      match GiveBack(s, n) {
        case None =>
          SplitCapsIsMark(s[0], s[1..]);
        case Some(k) =>
          assert forall i :: 0 <= i <= k ==> IsUpper(s[i]);
          MarkCapsRun(prev, s, k);
          SplitCapsIsMark(s[k + 1], s[k + 2..]);
      }
    }
  }

  lemma {:induction false} SplitWordsIsMark(prev: char, s: string)
    requires s != "" ==> !WordBoundary(prev, s)
    ensures SplitWords(s) == MarkWords(prev, s)
    decreases |s|
  {
    if s != "" {
      if |s| > 1 && IsLowerOrDigit(s[0]) && IsUpper(s[1]) {
        assert s[1..][1..] == s[2..];
        assert MarkWords(s[0], s[1..]) == "_" + [s[1]] + MarkWords(s[1], s[2..]);
        SplitWordsIsMark(s[1], s[2..]);
      } else {
        SplitWordsIsMark(s[0], s[1..]);
      }
    }
  }

  lemma MarkWordsCons(prev: char, c: char, rest: string)
    ensures MarkWords(prev, [c] + rest) ==
            (if IsUpper(c) && IsLowerOrDigit(prev) then "_" else "") + [c] + MarkWords(c, rest)
  {
    assert ([c] + rest)[1..] == rest;
  }

  lemma MarkWordsAfterMark(prev: char, c: char, rest: string)
    ensures MarkWords(prev, "_" + [c] + rest) == "_" + [c] + MarkWords(c, rest)
  {
    assert "_" + [c] + rest == ['_'] + ([c] + rest);
    MarkWordsCons(prev, '_', [c] + rest);
    MarkWordsCons('_', c, rest);
  }

  /** The second pass sees the underscores of the first, and adds only its own. */
  lemma {:induction false} MarksCompose(prev: char, s: string)
    ensures MarkWords(prev, MarkCaps(prev, s)) == Mark(prev, s)
    decreases |s|
  {
    if s != "" {
      MarksCompose(s[0], s[1..]);
      if CapsBoundary(prev, s) {
        MarkWordsAfterMark(prev, s[0], MarkCaps(s[0], s[1..]));
      } else {
        assert "" + [s[0]] + MarkCaps(s[0], s[1..]) == [s[0]] + MarkCaps(s[0], s[1..]);
        MarkWordsCons(prev, s[0], MarkCaps(s[0], s[1..]));
      }
    }
  }

  /** The two regex passes of `to_snake_case` are the local rule. */
  lemma SnakeIsLocalRule(s: string)
    ensures ToSnake(s) == Lower(Mark('_', s))
  {
    SplitCapsIsMark('_', s);
    SplitWordsIsMark('_', SplitCaps(s));
    MarksCompose('_', s);
  }

  // ---- Idempotence -----------------------------------------------------------------------------------------

  lemma {:induction false} NothingToMark(prev: char, s: string)
    requires NoUpper(s)
    ensures Mark(prev, s) == s && Lower(s) == s
    decreases |s|
  {
    if s != "" {
      NothingToMark(s[0], s[1..]);
      assert s == [s[0]] + s[1..];
    }
  }

  /** `to_snake_case` leaves exactly the strings without capitals alone, and always produces one. */
  lemma SnakeFixedPoints(s: string)
    ensures NoUpper(ToSnake(s))
    ensures ToSnake(s) == s <==> NoUpper(s)
    ensures ToSnake(ToSnake(s)) == ToSnake(s)
  {
    SnakeIsLocalRule(s);
    var t := ToSnake(s);
    SnakeIsLocalRule(t);
    NothingToMark('_', t);
    if NoUpper(s) { NothingToMark('_', s); }
  }

  // ---- Camel case and back ----------------------------------------------------------------------------------

  /** `s.split("_")` */
  function Split(s: string): (r: seq<string>)
    ensures r != []
  {
    if s == "" then [""]
    else var rest := Split(s[1..]);
      if s[0] == '_' then [""] + rest else [[s[0]] + rest[0]] + rest[1..]
  }

  /** `x.title()`: a letter is upper-case exactly when no letter precedes it. */
  function TitleAfter(prev: char, s: string): string
    decreases |s|
  {
    if s == "" then ""
    else [if IsLetter(prev) then LowerChar(s[0]) else UpperChar(s[0])] + TitleAfter(s[0], s[1..])
  }

  function Title(s: string): string {
    TitleAfter('_', s)
  }

  function Titled(prev: char, c: char): char {
    if IsLetter(prev) then LowerChar(c) else UpperChar(c)
  }

  /** `str.title` capitalises exactly the letters that follow no letter. */
  lemma {:induction false} TitleByCharacters(prev: char, s: string)
    ensures |TitleAfter(prev, s)| == |s|
    ensures forall i :: 0 <= i < |s| ==> TitleAfter(prev, s)[i] == Titled(if i == 0 then prev else s[i - 1], s[i])
    decreases |s|
  {
    if s != "" {
      TitleByCharacters(s[0], s[1..]);
      var t, rest := TitleAfter(prev, s), TitleAfter(s[0], s[1..]);
      assert t == [Titled(prev, s[0])] + rest && |rest| == |s| - 1;
      forall i | 0 <= i < |s|
        ensures t[i] == Titled(if i == 0 then prev else s[i - 1], s[i])
      {
        if i > 0 {
          assert t[i] == rest[i - 1];
          assert rest[i - 1] == Titled(if i == 1 then s[0] else s[1..][i - 2], s[1..][i - 1]);
        }
      }
    }
  }

  function Titles(cs: seq<string>): string {
    if cs == [] then "" else Title(cs[0]) + Titles(cs[1..])
  }

  function ToCamel(s: string): string {
    var cs := Split(s);
    cs[0] + Titles(cs[1..])
  }

  function JoinRest(cs: seq<string>): string {
    if cs == [] then "" else "_" + cs[0] + JoinRest(cs[1..])
  }

  function Join(cs: seq<string>): string
    requires cs != []
  {
    cs[0] + JoinRest(cs[1..])
  }

  predicate IsWord(w: string) {
    w != "" && AllLower(w)
  }

  predicate AreWords(cs: seq<string>) {
    forall i :: 0 <= i < |cs| ==> IsWord(cs[i])
  }

  lemma SplitCons(c: char, rest: string)
    ensures Split([c] + rest) ==
            if c == '_' then [""] + Split(rest) else [[c] + Split(rest)[0]] + Split(rest)[1..]
  {
    assert ([c] + rest)[1..] == rest;
  }

  /** The components from an underscore on. */
  function After(rest: string): seq<string> {
    if rest == "" then [] else Split(rest[1..])
  }

  lemma {:induction false} SplitWord(w: string, rest: string)
    requires AllLower(w) && (rest == "" || rest[0] == '_')
    ensures Split(w + rest) == [w] + After(rest)
    decreases |w|
  {
    if w == "" {
      assert w + rest == rest;
    } else {
      var tail := w[1..];
      SplitWord(tail, rest);
      assert w + rest == [w[0]] + (tail + rest);
      SplitCons(w[0], tail + rest);
      assert [w[0]] + tail == w;
      assert ([tail] + After(rest))[1..] == After(rest);
    }
  }

  lemma {:induction false} SplitJoin(cs: seq<string>)
    requires cs != [] && AreWords(cs)
    ensures Split(Join(cs)) == cs
    decreases |cs|
  {
    var rest := JoinRest(cs[1..]);
    assert IsWord(cs[0]);
    if |cs| > 1 {
      var tail := cs[1..];
      SplitJoin(tail);
      assert rest == ['_'] + Join(tail);
      assert rest[1..] == Join(tail);
    }
    SplitWord(cs[0], rest);
    assert cs == [cs[0]] + cs[1..];
  }

  lemma {:induction false} TitleTail(prev: char, w: string)
    requires IsLower(prev) && AllLower(w)
    ensures TitleAfter(prev, w) == w
    decreases |w|
  {
    if w != "" {
      TitleTail(w[0], w[1..]);
      assert w == [w[0]] + w[1..];
    }
  }

  lemma TitleOfWord(w: string)
    requires IsWord(w)
    ensures Title(w) == [UpperChar(w[0])] + w[1..] && Lower(Title(w)) == w
  {
    TitleTail(w[0], w[1..]);
  }

  lemma Assoc(a: string, b: string, c: string)
    ensures (a + b) + c == a + (b + c)
  {
  }

  lemma HeadAndTail(w: string)
    requires w != ""
    ensures w == [w[0]] + w[1..]
  {
  }

  lemma MarkCons(prev: char, c: char, rest: string)
    ensures Mark(prev, [c] + rest) == (if Boundary(prev, [c] + rest) then ['_', c] else [c]) + Mark(c, rest)
  {
    assert ([c] + rest)[1..] == rest;
  }

  lemma {:induction false} MarkThroughLower(prev: char, w: string, rest: string)
    requires AllLower(w)
    ensures Mark(prev, w + rest) == w + Mark(if w == "" then prev else w[|w| - 1], rest)
    decreases |w|
  {
    if w == "" {
      assert w + rest == rest;
    } else {
      var c, tail := w[0], w[1..];
      HeadAndTail(w);
      Assoc([c], tail, rest);
      MarkCons(prev, c, tail + rest);
      MarkThroughLower(c, tail, rest);
      Assoc([c], tail, Mark(w[|w| - 1], rest));
    }
  }

  lemma LowerConcat(a: string, b: string)
    ensures Lower(a + b) == Lower(a) + Lower(b)
  {
  }

  /** What comes back: the underscore between two one-letter words is lost. */
  function Rejoined(afterSingle: bool, cs: seq<string>): string
    decreases |cs|
  {
    if cs == [] then ""
    else (if afterSingle && |cs[0]| == 1 then "" else "_") + cs[0] + Rejoined(|cs[0]| == 1, cs[1..])
  }

  /** Whether a title starts a word depends on its length only when a capital precedes it. */
  lemma TitleBoundary(prev: char, head: char, tail: string, rest: string)
    requires IsUpper(head) && AllLower(tail) && (IsLower(prev) || IsUpper(prev))
    requires rest == "" || IsUpper(rest[0])
    ensures Boundary(prev, [head] + (tail + rest)) <==> !(IsUpper(prev) && tail == "")
  {
    var t := [head] + (tail + rest);
    if tail != "" {
      assert t[1] == tail[0];
    } else if rest != "" {
      assert t[1] == rest[0];
    }
  }

  /** One titled word, before anything that starts with a capital or ends. */
  lemma MarkTitle(prev: char, head: char, tail: string, rest: string)
    requires IsUpper(head) && AllLower(tail) && (IsLower(prev) || IsUpper(prev))
    requires rest == "" || IsUpper(rest[0])
    ensures Mark(prev, ([head] + tail) + rest) ==
      ((if IsUpper(prev) && tail == "" then [head] else ['_', head]) + tail)
      + Mark(if tail == "" then head else tail[|tail| - 1], rest)
  {
    var lead := if IsUpper(prev) && tail == "" then [head] else ['_', head];
    Assoc([head], tail, rest);
    TitleBoundary(prev, head, tail, rest);
    MarkCons(prev, head, tail + rest);
    MarkThroughLower(head, tail, rest);
    Assoc(lead, tail, Mark(if tail == "" then head else tail[|tail| - 1], rest));
  }

  lemma {:induction false} SnakeOfTitles(prev: char, cs: seq<string>)
    requires AreWords(cs) && (IsLower(prev) || IsUpper(prev))
    ensures Titles(cs) == "" || IsUpper(Titles(cs)[0])
    ensures Lower(Mark(prev, Titles(cs))) == Rejoined(IsUpper(prev), cs)
    decreases |cs|
  {
    if cs != [] {
      var w := cs[0];
      assert IsWord(w);
      var last := if |w| == 1 then UpperChar(w[0]) else w[|w| - 1];
      SnakeOfTitles(last, cs[1..]);
      SnakeOfTitle(prev, w, Titles(cs[1..]));
    }
  }

  lemma SnakeOfTitle(prev: char, w: string, rest: string)
    requires IsWord(w) && (IsLower(prev) || IsUpper(prev))
    requires rest == "" || IsUpper(rest[0])
    ensures Title(w) != "" && IsUpper(Title(w)[0])
    ensures var last := if |w| == 1 then UpperChar(w[0]) else w[|w| - 1];
      Lower(Mark(prev, Title(w) + rest)) ==
        (if IsUpper(prev) && |w| == 1 then "" else "_") + w + Lower(Mark(last, rest))
  {
    TitleOfWord(w);
    var head, tail := UpperChar(w[0]), w[1..];
    MarkTitle(prev, head, tail, rest);
    var last := if |w| == 1 then head else w[|w| - 1];
    var mark := if IsUpper(prev) && |w| == 1 then "" else "_";
    var lead := if IsUpper(prev) && |w| == 1 then [head] else ['_', head];
    LowerConcat(lead + tail, Mark(last, rest));
    assert lead + tail == mark + Title(w);
    LowerOfLead(mark, w);
  }

  lemma LowerOfLead(mark: string, w: string)
    requires IsWord(w) && mark in ["", "_"]
    ensures Lower(mark + Title(w)) == mark + w
  {
    TitleOfWord(w);
    LowerConcat(mark, Title(w));
    NothingToMark('_', mark);
  }

  lemma SnakeAfterWord(w: string, rest: string)
    requires IsWord(w)
    ensures ToSnake(w + rest) == w + Lower(Mark(w[|w| - 1], rest))
  {
    SnakeIsLocalRule(w + rest);
    MarkThroughLower('_', w, rest);
    LowerConcat(w, Mark(w[|w| - 1], rest));
    NothingToMark('_', w);
  }

  lemma SnakeOfLastTitle(prev: char, w: string)
    requires IsWord(w) && IsLower(prev)
    ensures Lower(Mark(prev, Title(w))) == "_" + w
  {
    SnakeOfTitle(prev, w, "");
    assert Title(w) + "" == Title(w);
  }

  /** Two one-letter words next to each other, with `afterSingle` for the word before. */
  predicate SinglesMeet(afterSingle: bool, cs: seq<string>)
    decreases |cs|
  {
    cs != [] && ((afterSingle && |cs[0]| == 1) || SinglesMeet(|cs[0]| == 1, cs[1..]))
  }

  lemma {:induction false} RejoinedLength(afterSingle: bool, cs: seq<string>)
    ensures |Rejoined(afterSingle, cs)| <= |JoinRest(cs)|
    ensures SinglesMeet(afterSingle, cs) ==> |Rejoined(afterSingle, cs)| < |JoinRest(cs)|
    ensures !SinglesMeet(afterSingle, cs) ==> Rejoined(afterSingle, cs) == JoinRest(cs)
    decreases |cs|
  {
    if cs != [] { RejoinedLength(|cs[0]| == 1, cs[1..]); }
  }

  lemma {:induction false} SinglesMeetSomewhere(afterSingle: bool, cs: seq<string>)
    ensures SinglesMeet(afterSingle, cs) <==>
      || (afterSingle && cs != [] && |cs[0]| == 1)
      || exists i :: 0 <= i < |cs| - 1 && |cs[i]| == 1 && |cs[i + 1]| == 1
    decreases |cs|
  {
    if cs != [] {
      var rest := cs[1..];
      SinglesMeetSomewhere(|cs[0]| == 1, rest);
      if exists i :: 0 <= i < |rest| - 1 && |rest[i]| == 1 && |rest[i + 1]| == 1 {
        var i :| 0 <= i < |rest| - 1 && |rest[i]| == 1 && |rest[i + 1]| == 1;
        assert |cs[i + 1]| == 1 && |cs[i + 2]| == 1;
      }
      if exists i :: 0 <= i < |cs| - 1 && |cs[i]| == 1 && |cs[i + 1]| == 1 {
        var i :| 0 <= i < |cs| - 1 && |cs[i]| == 1 && |cs[i + 1]| == 1;
        if i > 0 { assert |rest[i - 1]| == 1 && |rest[i]| == 1; } else { assert |rest[0]| == 1; }
      }
    }
  }

  /**
   For words of a-z joined by underscores, camel case converts back to the same string
   exactly when no two adjacent words after the first are both single letters.
   */
  lemma CamelRoundTrip(cs: seq<string>)
    requires cs != [] && AreWords(cs)
    ensures ToSnake(ToCamel(Join(cs))) == Join(cs) <==>
      !exists i :: 1 <= i < |cs| - 1 && |cs[i]| == 1 && |cs[i + 1]| == 1
  {
    var w, rest := cs[0], cs[1..];
    assert IsWord(w);
    SplitJoin(cs);
    var last := w[|w| - 1];
    SnakeAfterWord(w, Titles(rest));
    SnakeOfTitles(last, rest);
    assert ToSnake(w + Titles(rest)) == w + Rejoined(false, rest);
    RejoinedLength(false, rest);
    SinglesMeetSomewhere(false, rest);
    if exists i :: 0 <= i < |rest| - 1 && |rest[i]| == 1 && |rest[i + 1]| == 1 {
      var i :| 0 <= i < |rest| - 1 && |rest[i]| == 1 && |rest[i + 1]| == 1;
      assert |cs[i + 1]| == 1 && |cs[i + 2]| == 1;
    }
    if exists i :: 1 <= i < |cs| - 1 && |cs[i]| == 1 && |cs[i + 1]| == 1 {
      var i :| 1 <= i < |cs| - 1 && |cs[i]| == 1 && |cs[i + 1]| == 1;
      assert |rest[i - 1]| == 1 && |rest[i]| == 1;
    }
  }
}
