/** Strings as the narinfo reader and writer use them: lines, trimming, words, numbers. */
module Text {

  /** White space as the character class of the source has it. */
  predicate IsSpace(c: char) {
    || '\t' <= c <= '\r' || c == ' ' || c == '\U{85}' || c == '\U{A0}' || c == '\U{1680}'
    || '\U{2000}' <= c <= '\U{200A}' || c == '\U{2028}' || c == '\U{2029}' || c == '\U{202F}'
    || c == '\U{205F}' || c == '\U{3000}'
  }

  /** Its code points. */
  lemma SpaceCodes(c: char)
    ensures var n := c as int;
      IsSpace(c) <==> 9 <= n <= 13 || 8192 <= n <= 8202 || n in {32, 133, 160, 5760, 8232, 8233, 8239, 8287, 12288}
  {
  }

  predicate NoSpace(s: string) { forall c :: c in s ==> !IsSpace(c) }

  function TrimEnd(s: string): string {
    if s != [] && IsSpace(s[|s| - 1]) then TrimEnd(s[..|s| - 1]) else s
  }

  function TrimStart(s: string): string {
    if s != [] && IsSpace(s[0]) then TrimStart(s[1..]) else s
  }

  function Trim(s: string): string { TrimEnd(TrimStart(s)) }

  /** Text that survives on a line of its own: no line break and no space at the end. */
  predicate OneLine(s: string) {
    '\n' !in s && (s != [] ==> !IsSpace(s[|s| - 1]))
  }

  lemma {:induction false} TrimEndOk(s: string)
    ensures |TrimEnd(s)| <= |s| && s[..|TrimEnd(s)|] == TrimEnd(s)
    ensures TrimEnd(s) != [] ==> !IsSpace(TrimEnd(s)[|TrimEnd(s)| - 1])
    ensures forall k :: |TrimEnd(s)| <= k < |s| ==> IsSpace(s[k])
  {
    if s != [] && IsSpace(s[|s| - 1]) {
      TrimEndOk(s[..|s| - 1]);
    }
  }

  /** What is left after trimming does not depend on a part in front of it. */
  lemma {:induction false} TrimEndConcat(a: string, b: string)
    ensures TrimEnd(a + b) == if TrimEnd(b) == [] then TrimEnd(a) else a + TrimEnd(b)
  {
    if b == [] {
      assert a + b == a;
    } else if IsSpace(b[|b| - 1]) {
      assert (a + b)[..|a + b| - 1] == a + b[..|b| - 1];
      TrimEndConcat(a, b[..|b| - 1]);
    }
  }

  // ---- lines ----

  function Find(s: string, c: char): (i: nat)
    ensures i <= |s| && (i < |s| ==> s[i] == c) && forall k :: 0 <= k < i ==> s[k] != c
  {
    if s == [] || s[0] == c then 0 else 1 + Find(s[1..], c)
  }

  /** The lines of a text. A carriage return before the line break stays on the line,
      which is trimmed before use. */
  function Lines(s: string): seq<string>
    decreases |s|
  {
    if s == [] then []
    else
      var i := Find(s, '\n');
      if i == |s| then [s] else [s[..i]] + Lines(s[i + 1..])
  }

  function Unlines(ls: seq<string>): string {
    if ls == [] then [] else ls[0] + "\n" + Unlines(ls[1..])
  }

  lemma {:induction false} LinesUnlines(ls: seq<string>)
    requires forall k :: 0 <= k < |ls| ==> '\n' !in ls[k]
    ensures Lines(Unlines(ls)) == ls
  {
    if ls != [] {
      LinesUnlines(ls[1..]);
      var s := Unlines(ls);
      assert s[|ls[0]|] == '\n' && s[..|ls[0]|] == ls[0] && s[|ls[0]| + 1..] == Unlines(ls[1..]);
      FirstBreak(s, |ls[0]|);
    }
  }

  lemma FirstBreak(s: string, i: nat)
    requires i < |s| && s[i] == '\n' && '\n' !in s[..i]
    ensures Find(s, '\n') == i
  {
  }

  lemma {:induction false} LinesHaveNoBreak(s: string, k: nat)
    requires k < |Lines(s)|
    ensures '\n' !in Lines(s)[k]
    decreases |s|
  {
    var i := Find(s, '\n');
    if i < |s| && k > 0 {
      LinesHaveNoBreak(s[i + 1..], k - 1);
    }
  }

  lemma {:induction false} UnlinesConcat(a: seq<string>, b: seq<string>)
    ensures Unlines(a + b) == Unlines(a) + Unlines(b)
  {
    if a == [] {
      assert a + b == b;
    } else {
      assert (a + b)[1..] == a[1..] + b;
      UnlinesConcat(a[1..], b);
    }
  }

  // ---- words ----

  function WordEnd(s: string): (i: nat)
    ensures i <= |s| && (i < |s| ==> IsSpace(s[i])) && NoSpace(s[..i])
  {
    if s == [] || IsSpace(s[0]) then 0 else assert s == [s[0]] + s[1..]; 1 + WordEnd(s[1..])
  }

  function Words(s: string): (r: seq<string>)
    ensures forall k :: 0 <= k < |r| ==> r[k] != [] && NoSpace(r[k])
    decreases |s|
  {
    if s == [] then []
    else if IsSpace(s[0]) then Words(s[1..])
    else [s[..WordEnd(s)]] + Words(s[WordEnd(s)..])
  }

  function Join(ws: seq<string>): string {
    if ws == [] then [] else if |ws| == 1 then ws[0] else ws[0] + " " + Join(ws[1..])
  }

  function NonEmpty(ws: seq<string>): seq<string> {
    if ws == [] then [] else if ws[0] == [] then NonEmpty(ws[1..]) else [ws[0]] + NonEmpty(ws[1..])
  }

  lemma {:induction false} WordEndAt(w: string, s: string)
    requires NoSpace(w) && (s == [] || IsSpace(s[0]))
    ensures WordEnd(w + s) == |w|
  {
    if w == [] {
      assert w + s == s;
    } else {
      assert (w + s)[1..] == w[1..] + s && w[0] in w;
      WordEndAt(w[1..], s);
    }
  }

  lemma FirstWord(w: string, s: string)
    requires NoSpace(w) && w != [] && (s == [] || IsSpace(s[0]))
    ensures Words(w + s) == [w] + Words(s)
  {
    WordEndAt(w, s);
    assert (w + s)[0] == w[0] && w[0] in w;
    assert (w + s)[..|w|] == w && (w + s)[|w|..] == s;
  }

  /** Joined words without spaces in them come apart again, but for empty ones. */
  lemma {:induction false} WordsJoin(ws: seq<string>)
    requires forall k :: 0 <= k < |ws| ==> NoSpace(ws[k])
    ensures Words(Join(ws)) == NonEmpty(ws)
  {
    if |ws| == 1 {
      assert NonEmpty(ws[1..]) == [];
      if ws[0] != [] {
        FirstWord(ws[0], []);
        assert ws[0] + [] == ws[0];
      }
    } else if |ws| > 1 {
      WordsJoin(ws[1..]);
      var rest := " " + Join(ws[1..]);
      assert rest[1..] == Join(ws[1..]) && ws[0] + " " + Join(ws[1..]) == ws[0] + rest;
      if ws[0] != [] {
        FirstWord(ws[0], rest);
      } else {
        assert ws[0] + rest == rest;
      }
    }
  }

  lemma {:induction false} SpacesHaveNoWords(s: string)
    requires forall k :: 0 <= k < |s| ==> IsSpace(s[k])
    ensures Words(s) == []
  {
    if s != [] {
      SpacesHaveNoWords(s[1..]);
    }
  }

  /** Space at the end makes no words. */
  lemma {:induction false} WordsThenSpaces(s: string, t: string)
    requires forall k :: 0 <= k < |t| ==> IsSpace(t[k])
    ensures Words(s + t) == Words(s)
    decreases |s|
  {
    if s == [] {
      assert s + t == t;
      SpacesHaveNoWords(t);
    } else if IsSpace(s[0]) {
      assert (s + t)[1..] == s[1..] + t;
      WordsThenSpaces(s[1..], t);
    } else {
      var w, r := s[..WordEnd(s)], s[WordEnd(s)..];
      assert s == w + r && s + t == w + (r + t);
      FirstWord(w, r);
      FirstWord(w, r + t);
      WordsThenSpaces(r, t);
    }
  }

  lemma WordsTrimEnd(s: string)
    ensures Words(TrimEnd(s)) == Words(s)
  {
    TrimEndOk(s);
    var n := |TrimEnd(s)|;
    assert s == TrimEnd(s) + s[n..];
    WordsThenSpaces(TrimEnd(s), s[n..]);
  }

  lemma {:induction false} NonEmptyAll(ws: seq<string>)
    ensures |NonEmpty(ws)| <= |ws|
    ensures |NonEmpty(ws)| == |ws| <==> forall k :: 0 <= k < |ws| ==> ws[k] != []
    ensures |NonEmpty(ws)| == |ws| ==> NonEmpty(ws) == ws
  {
    if ws != [] {
      NonEmptyAll(ws[1..]);
      assert ws == [ws[0]] + ws[1..];
    }
  }

  // ---- numbers ----

  datatype Number = Number(value: nat) | Empty | InvalidDigit | PosOverflow

  const MAX := 0x1_0000_0000_0000_0000

  predicate IsDigit(c: char) { '0' <= c <= '9' }

  function DigitOf(c: char): nat
    requires IsDigit(c)
  {
    (c - '0') as int
  }

  function Digits(n: nat): string {
    if n < 10 then [('0' as int + n) as char] else Digits(n / 10) + [('0' as int + n % 10) as char]
  }

  function ReadDigits(acc: nat, s: string): Number
    decreases |s|
  {
    if s == [] then Number(acc)
    else if !IsDigit(s[0]) then InvalidDigit
    else if acc * 10 + DigitOf(s[0]) >= MAX then PosOverflow
    else ReadDigits(acc * 10 + DigitOf(s[0]), s[1..])
  }

  /** Reading an unsigned 64-bit number: one plus sign in front is allowed. */
  function ReadU64(s: string): Number {
    if s == [] then Empty
    else if s == "+" || s == "-" then InvalidDigit
    else if s[0] == '+' then ReadDigits(0, s[1..])
    else ReadDigits(0, s)
  }

  lemma {:induction false} ReadInRange(acc: nat, s: string)
    requires acc < MAX && ReadDigits(acc, s).Number?
    ensures ReadDigits(acc, s).value < MAX
    decreases |s|
  {
    if s != [] {
      ReadInRange(acc * 10 + DigitOf(s[0]), s[1..]);
    }
  }

  lemma {:induction false} ReadConcat(acc: nat, s: string, t: string)
    requires ReadDigits(acc, s).Number?
    ensures ReadDigits(acc, s + t) == ReadDigits(ReadDigits(acc, s).value, t)
    decreases |s|
  {
    if s == [] {
      assert s + t == t;
    } else {
      assert (s + t)[1..] == s[1..] + t;
      ReadConcat(acc * 10 + DigitOf(s[0]), s[1..], t);
    }
  }

  lemma {:induction false} ReadWritten(n: nat)
    requires n < MAX
    ensures ReadDigits(0, Digits(n)) == Number(n)
  {
    if n >= 10 {
      ReadWritten(n / 10);
      ReadConcat(0, Digits(n / 10), [('0' as int + n % 10) as char]);
    }
  }

  lemma {:induction false} DigitsOnly(n: nat)
    ensures Digits(n) != [] && forall k :: 0 <= k < |Digits(n)| ==> IsDigit(Digits(n)[k])
  {
    if n >= 10 {
      DigitsOnly(n / 10);
    }
  }

  lemma ReadDigitsBack(n: nat)
    requires n < MAX
    ensures ReadU64(Digits(n)) == Number(n) && OneLine(Digits(n))
  {
    DigitsOnly(n);
    ReadWritten(n);
    assert IsDigit(Digits(n)[0]);
  }
}
