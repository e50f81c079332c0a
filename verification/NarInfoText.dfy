/** The text of a narinfo, letter by letter, and which texts are accepted. */
module NarInfoText {
  import opened Collections
  import opened Text
  import opened NarInfo
  import opened NarInfoRoundTrip

  // ---- numbers ----

  function DecimalValue(s: string): int {
    if s == [] then 0 else DecimalValue(s[..|s| - 1]) * 10 + (s[|s| - 1] as int - '0' as int)
  }

  predicate AllDigits(s: string) { forall k :: 0 <= k < |s| ==> '0' <= s[k] <= '9' }

  lemma {:induction false} ValueNonNegative(s: string)
    requires AllDigits(s)
    ensures DecimalValue(s) >= 0
  {
    if s != [] { ValueNonNegative(s[..|s| - 1]); }
  }

  lemma {:induction false} ErrorStays(acc: nat, s: string, t: string)
    requires !ReadDigits(acc, s).Number?
    ensures !ReadDigits(acc, s + t).Number?
    decreases |s|
  {
    if s != [] {
      assert (s + t)[1..] == s[1..] + t;
      if IsDigit(s[0]) && acc * 10 + DigitOf(s[0]) < MAX { ErrorStays(acc * 10 + DigitOf(s[0]), s[1..], t); }
    }
  }

  lemma ReadEnd(s: string, c: char)
    requires ReadDigits(0, s).Number?
    ensures var v := ReadDigits(0, s).value;
      ReadDigits(0, s + [c]).Number? <==> IsDigit(c) && v * 10 + DigitOf(c) < MAX
    ensures var v := ReadDigits(0, s).value;
      ReadDigits(0, s + [c]).Number? ==> ReadDigits(0, s + [c]).value == v * 10 + DigitOf(c)
  {
    ReadConcat(0, s, [c]);
    assert [c][1..] == [];
  }

  lemma {:induction false} DigitsReadExactly(s: string, v: nat)
    ensures ReadDigits(0, s) == Number(v) <==> AllDigits(s) && DecimalValue(s) == v && v < MAX
    decreases |s|
  {
    if s != [] {
      var t, c := s[..|s| - 1], s[|s| - 1];
      assert s == t + [c];
      if AllDigits(t) { ValueNonNegative(t); }
      if ReadDigits(0, t).Number? {
        DigitsReadExactly(t, ReadDigits(0, t).value);
        ReadEnd(t, c);
      } else {
        ErrorStays(0, t, [c]);
        if AllDigits(s) { DigitsReadExactly(t, DecimalValue(t)); }
      }
    }
  }

  /** A number is read from its decimal digits, with or without a plus sign, if it fits into
      64 bits, and from nothing else. */
  lemma NumberExactly(s: string, v: nat)
    ensures ReadU64(s) == Number(v) <==>
      var t := if s != [] && s[0] == '+' then s[1..] else s;
      t != [] && AllDigits(t) && DecimalValue(t) == v && v < 0x1_0000_0000_0000_0000
  {
    var t := if s != [] && s[0] == '+' then s[1..] else s;
    DigitsReadExactly(t, v);
    assert s == "-" ==> !AllDigits(t);
    assert s == "+" ==> t == [];
  }

  /** Numbers are written in decimal digits, without a zero in front. */
  lemma {:induction false} WrittenExactly(n: nat)
    ensures AllDigits(Digits(n)) && Digits(n) != [] && DecimalValue(Digits(n)) == n
    ensures n > 0 ==> Digits(n)[0] != '0'
    ensures n == 0 ==> Digits(n) == "0"
  {
    if n >= 10 {
      WrittenExactly(n / 10);
      var c := ('0' as int + n % 10) as char;
      assert (Digits(n / 10) + [c])[..|Digits(n)| - 1] == Digits(n / 10);
    } else {
      assert Digits(n)[..0] == [];
    }
  }

  // ---- what is printed ----

  /** The line of an optional value. */
  function OptionLine(name: string, v: Option<string>): string {
    if v.Some? then name + v.value + "\n" else ""
  }

  function SigLines(sigs: seq<string>): string {
    if sigs == [] then "" else SigLines(sigs[..|sigs| - 1]) + "Sig: " + sigs[|sigs| - 1] + "\n"
  }

  /** The text from the first line to that of the file size. */
  function HeadText(dir: string, n: NarInfo): string {
    ""
    + ("StorePath: " + (dir + "/" + n.storePath)) + "\n"
    + ("URL: " + n.url) + "\n"
    + ("Compression: " + NameOf(n.compression)) + "\n"
    + OptionLine("FileHash: ", n.fileHash)
    + OptionLine("FileSize: ", if n.fileSize.Some? then Some(Digits(n.fileSize.value)) else None)
  }

  function BodyText(dir: string, n: NarInfo): string {
    HeadText(dir, n)
    + ("NarHash: " + n.narHash) + "\n"
    + ("NarSize: " + Digits(n.narSize)) + "\n"
    + ("References: " + Join(n.references)) + "\n"
    + OptionLine("Deriver: ", n.deriver)
    + OptionLine("CA: ", n.ca)
  }

  function NameOf(c: Compression): string {
    if c == Plain then "none" else if c == Xz then "xz" else if c == Bzip2 then "bz2"
    else if c == Brotli then "br" else "zstd"
  }

  lemma LineOf(k: Key, name: string, v: string)
    requires KeyName(k) + ": " == name
    ensures FieldLine(Field(k, v)) == name + v
  {
  }

  lemma AddLine(fs: seq<Field>, k: Key, name: string, v: string)
    requires KeyName(k) + ": " == name
    ensures TextOf(fs + [Field(k, v)]) == TextOf(fs) + (name + v) + "\n"
  {
    TextOfEnd(fs, Field(k, v));
    LineOf(k, name, v);
  }

  lemma AddOption(fs: seq<Field>, k: Key, name: string, v: Option<string>)
    requires KeyName(k) + ": " == name
    ensures TextOf(fs + OptField(k, v)) == TextOf(fs) + OptionLine(name, v)
  {
    if v.Some? {
      AddLine(fs, k, name, v.value);
      assert TextOf(fs) + (name + v.value) + "\n" == TextOf(fs) + (name + v.value + "\n");
    } else {
      assert fs + OptField(k, v) == fs;
    }
  }

  lemma HeadPrinted(dir: string, n: NarInfo)
    ensures TextOf(HeadFields(dir, n)) == HeadText(dir, n)
  {
    var f1 := [] + [Field(KStorePath, PrintPath(dir, n.storePath))];
    AddLine([], KStorePath, "StorePath: ", PrintPath(dir, n.storePath));
    AddLine(f1, KURL, "URL: ", n.url);
    var f2 := f1 + [Field(KURL, n.url)];
    AddLine(f2, KCompression, "Compression: ", CompressionName(n.compression));
    var f3 := f2 + [Field(KCompression, CompressionName(n.compression))];
    AddOption(f3, KFileHash, "FileHash: ", n.fileHash);
    AddOption(f3 + OptField(KFileHash, n.fileHash), KFileSize, "FileSize: ", SizeText(n.fileSize));
  }

  lemma BodyPrinted(dir: string, n: NarInfo)
    ensures TextOf(BodyFields(dir, n)) == BodyText(dir, n)
  {
    HeadPrinted(dir, n);
    var f0 := HeadFields(dir, n);
    AddLine(f0, KNarHash, "NarHash: ", n.narHash);
    var f1 := f0 + [Field(KNarHash, n.narHash)];
    AddLine(f1, KNarSize, "NarSize: ", Digits(n.narSize));
    var f2 := f1 + [Field(KNarSize, Digits(n.narSize))];
    AddLine(f2, KReferences, "References: ", Join(n.references));
    var f3 := f2 + [Field(KReferences, Join(n.references))];
    AddOption(f3, KDeriver, "Deriver: ", n.deriver);
    AddOption(f3 + OptField(KDeriver, n.deriver), KCA, "CA: ", n.ca);
  }

  lemma OneMore(a: string, b: string, name: string, x: string)
    ensures a + b + (name + x) + "\n" == a + (b + name + x + "\n")
  {
  }

  lemma {:induction false} SigsPrinted(fs: seq<Field>, sigs: seq<string>)
    ensures TextOf(fs + SigFields(sigs)) == TextOf(fs) + SigLines(sigs)
    decreases |sigs|
  {
    if sigs == [] {
      assert fs + SigFields(sigs) == fs;
    } else {
      var init, x := sigs[..|sigs| - 1], sigs[|sigs| - 1];
      SigsPrinted(fs, init);
      assert fs + SigFields(sigs) == fs + SigFields(init) + [Field(KSig, x)];
      AddLine(fs + SigFields(init), KSig, "Sig: ", x);
      OneMore(TextOf(fs), SigLines(init), "Sig: ", x);
    }
  }

  /** The printed text: a line for each value, in this order and under these names. */
  lemma PrintedText(dir: string, n: NarInfo)
    ensures Rendered(dir, n) == BodyText(dir, n) + SigLines(n.sigs)
  {
    BodyPrinted(dir, n);
    SigsPrinted(BodyFields(dir, n), n.sigs);
  }

  /** Which words name a compression: those that are printed, in any case, and one more. */
  lemma CompressionExactly(s: string, c: Compression)
    ensures ReadCompression(s) == Ok(c) <==> Lower(Trim(s)) == NameOf(c) || (c == Zstd && Lower(Trim(s)) == "zst")
  {
  }

  // ---- what is accepted ----

  predicate NamesField(raw: string, name: string) { SplitLine(raw).Named? && SplitLine(raw).name == name }

  /** Some line is for the field. */
  predicate HasField(ls: seq<string>, name: string) { exists k :: 0 <= k < |ls| && NamesField(ls[k], name) }

  predicate Any<T>(xs: seq<T>, f: T -> bool) { exists k :: 0 <= k < |xs| && f(xs[k]) }

  lemma AnyEnd<T>(xs: seq<T>, f: T -> bool)
    requires xs != []
    ensures Any(xs, f) <==> Any(xs[..|xs| - 1], f) || f(xs[|xs| - 1])
  {
    var init := xs[..|xs| - 1];
    if k :| 0 <= k < |init| && f(init[k]) { assert f(xs[k]); }
    if k :| 0 <= k < |xs| && f(xs[k]) { assert k < |init| ==> f(init[k]); }
  }

  lemma HasFieldEnd(ls: seq<string>, name: string)
    requires ls != []
    ensures HasField(ls, name) <==> HasField(ls[..|ls| - 1], name) || NamesField(ls[|ls| - 1], name)
  {
    AnyEnd(ls, raw => NamesField(raw, name));
  }

  predicate Seen(s: State, ls: seq<string>) {
    && (s.haveStorePath <==> HasField(ls, "StorePath"))
    && (s.haveUrl <==> HasField(ls, "URL"))
    && (s.haveCompression <==> HasField(ls, "Compression"))
    && (s.haveNarHash <==> HasField(ls, "NarHash"))
    && (s.haveNarSize <==> HasField(ls, "NarSize"))
  }

  lemma LineSeen(dir: string, s: State, raw: string, nr: nat)
    requires ReadLine(dir, s, raw, nr).Ok?
    ensures var t := ReadLine(dir, s, raw, nr).value;
      && (t.haveStorePath <==> s.haveStorePath || NamesField(raw, "StorePath"))
      && (t.haveUrl <==> s.haveUrl || NamesField(raw, "URL"))
      && (t.haveCompression <==> s.haveCompression || NamesField(raw, "Compression"))
      && (t.haveNarHash <==> s.haveNarHash || NamesField(raw, "NarHash"))
      && (t.haveNarSize <==> s.haveNarSize || NamesField(raw, "NarSize"))
  {
    var l := SplitLine(raw);
    if l.Named? {
      assert ReadLine(dir, s, raw, nr) == SetNamed(dir, s, l.name, l.value);
      NameSeen(dir, s, l.name, l.value);
    }
  }

  lemma NameSeen(dir: string, s: State, name: string, v: string)
    requires SetNamed(dir, s, name, v).Ok?
    ensures var t := SetNamed(dir, s, name, v).value;
      && (t.haveStorePath <==> s.haveStorePath || name == "StorePath")
      && (t.haveUrl <==> s.haveUrl || name == "URL")
      && (t.haveCompression <==> s.haveCompression || name == "Compression")
      && (t.haveNarHash <==> s.haveNarHash || name == "NarHash")
      && (t.haveNarSize <==> s.haveNarSize || name == "NarSize")
  {
    NameKey(name);
    if KeyOf(name).Some? { KeySeen(dir, s, KeyOf(name).value, v); }
  }

  lemma NameKey(name: string)
    ensures KeyOf(name) == Some(KStorePath) <==> name == "StorePath"
    ensures KeyOf(name) == Some(KURL) <==> name == "URL"
    ensures KeyOf(name) == Some(KCompression) <==> name == "Compression"
    ensures KeyOf(name) == Some(KNarHash) <==> name == "NarHash"
    ensures KeyOf(name) == Some(KNarSize) <==> name == "NarSize"
  {
  }

  lemma KeySeen(dir: string, s: State, k: Key, v: string)
    requires SetField(dir, s, k, v).Ok?
    ensures var t := SetField(dir, s, k, v).value;
      && (t.haveStorePath <==> s.haveStorePath || k.KStorePath?)
      && (t.haveUrl <==> s.haveUrl || k.KURL?)
      && (t.haveCompression <==> s.haveCompression || k.KCompression?)
      && (t.haveNarHash <==> s.haveNarHash || k.KNarHash?)
      && (t.haveNarSize <==> s.haveNarSize || k.KNarSize?)
  {
    match k
    case KCompression =>
    case KFileSize =>
    case KNarSize =>
    case _ =>
  }

  lemma {:induction false} LinesSeen(dir: string, ls: seq<string>)
    requires ReadLines(dir, Start(dir), ls).Ok?
    ensures Seen(ReadLines(dir, Start(dir), ls).value, ls)
    decreases |ls|
  {
    if ls != [] {
      var init := ls[..|ls| - 1];
      LinesSeen(dir, init);
      LineSeen(dir, ReadLines(dir, Start(dir), init).value, ls[|ls| - 1], |ls|);
      HasFieldEnd(ls, "StorePath");
      HasFieldEnd(ls, "URL");
      HasFieldEnd(ls, "Compression");
      HasFieldEnd(ls, "NarHash");
      HasFieldEnd(ls, "NarSize");
    }
  }

  /** A text all of whose lines can be read is accepted if and only if it has the five
      required fields, wherever they are; otherwise the first of them that is missing
      is reported. */
  lemma AcceptedExactly(dir: string, input: string)
    requires ReadLines(dir, Start(dir), Lines(input)).Ok?
    ensures var ls := Lines(input);
      && (Parse(dir, input).Ok? <==>
            && HasField(ls, "StorePath") && HasField(ls, "URL") && HasField(ls, "Compression")
            && HasField(ls, "NarHash") && HasField(ls, "NarSize"))
      && (Parse(dir, input) == Err(MissingField(KStorePath)) <==> !HasField(ls, "StorePath"))
      && (Parse(dir, input) == Err(MissingField(KURL)) <==> HasField(ls, "StorePath") && !HasField(ls, "URL"))
      && (Parse(dir, input) == Err(MissingField(KCompression)) <==>
            HasField(ls, "StorePath") && HasField(ls, "URL") && !HasField(ls, "Compression"))
      && (Parse(dir, input) == Err(MissingField(KNarHash)) <==>
            HasField(ls, "StorePath") && HasField(ls, "URL") && HasField(ls, "Compression")
            && !HasField(ls, "NarHash"))
  {
    LinesSeen(dir, Lines(input));
  }

  const NAMES: set<string> := {
    "StorePath", "URL", "Compression", "FileHash", "FileSize", "NarHash", "NarSize", "References", "Deriver", "CA",
    "Sig" }

  /** Blank lines, comments and fields of other names change nothing, whatever their value,
      and a line without a colon is an error that carries its number. */
  lemma OtherLines(dir: string, s: State, raw: string, nr: nat)
    ensures Trim(raw) == [] || Trim(raw)[0] == '#' ==> ReadLine(dir, s, raw, nr) == Ok(s)
    ensures Trim(raw) != [] && Trim(raw)[0] != '#' && ':' !in Trim(raw) ==> ReadLine(dir, s, raw, nr) == Err(Line(nr))
    ensures SplitLine(raw).Named? && SplitLine(raw).name !in NAMES ==> ReadLine(dir, s, raw, nr) == Ok(s)
  {
    var line := Trim(raw);
    if ':' !in line { NoColon(line); }
    if SplitLine(raw).Named? { assert KeyOf(SplitLine(raw).name).Some? ==> SplitLine(raw).name in NAMES; }
  }

  lemma NoColon(s: string)
    requires ':' !in s
    ensures Find(s, ':') == |s|
  {
  }
}
