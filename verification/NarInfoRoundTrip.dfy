/** Exactly which narinfos come back when what was printed is parsed. */
module NarInfoRoundTrip {
  import opened Collections
  import opened Text
  import opened NarInfo

  // ---- one line ----

  lemma NameTrims(s: string)
    requires KeyText(s)
    ensures Trim(s) == s && TrimEnd(s + ": ") == s + ":"
  {
    assert s[0] in s && s[|s| - 1] in s;
    assert (s + ": ")[..|s| + 1] == s + ":";
  }

  lemma LineTrims(s: string, v: string)
    requires KeyText(s)
    ensures Trim(s + ": " + v) == s + if TrimEnd(v) == [] then ":" else ": " + TrimEnd(v)
  {
    assert s + ": " + TrimEnd(v) == s + (": " + TrimEnd(v));
    var raw := s + ": " + v;
    assert raw[0] == s[0] && s[0] in s;
    assert TrimStart(raw) == raw;
    TrimEndConcat(s + ": ", v);
    NameTrims(s);
  }

  lemma {:induction false} FindSkips(s: string, t: string, c: char)
    requires c !in s
    ensures Find(s + t, c) == |s| + Find(t, c)
  {
    if s == [] {
      assert s + t == t;
    } else {
      assert (s + t)[1..] == s[1..] + t;
      FindSkips(s[1..], t, c);
    }
  }

  lemma ColonFound(s: string, t: string)
    requires KeyText(s) && t != [] && t[0] == ':'
    ensures Find(s + t, ':') == |s|
  {
    FindSkips(s, t, ':');
    assert t[0] == ':' && Find(t, ':') == 0;
  }

  lemma TrimEndTwice(v: string)
    ensures TrimEnd(TrimEnd(v)) == TrimEnd(v)
  {
    TrimEndOk(v);
  }

  /** The value after the colon of a printed line. */
  lemma ValueBack(t: string)
    requires TrimEnd(t) == t
    ensures ValueText(if t == [] then [] else " " + t) == t
  {
    var rest := if t == [] then [] else " " + t;
    assert t != [] ==> HasPrefix(rest, " ") && rest[1..] == t;
  }

  lemma LineParts(name: string, t: string)
    requires KeyText(name)
    ensures var line := name + if t == [] then ":" else ": " + t;
      && Find(line, ':') == |name| && line[..|name|] == name && line[0] == name[0]
      && line[|name| + 1..] == if t == [] then [] else " " + t
  {
    ColonFound(name, if t == [] then ":" else ": " + t);
  }

  lemma TrimmedSplits(raw: string, name: string, t: string)
    requires KeyText(name) && Trim(name) == name && TrimEnd(t) == t
    requires Trim(raw) == name + if t == [] then ":" else ": " + t
    ensures SplitLine(raw) == Named(name, t)
  {
    LineParts(name, t);
    ValueBack(t);
  }

  /** A printed line is split into its name and the value without space at the end. */
  lemma LineSplits(name: string, v: string)
    requires KeyText(name)
    ensures SplitLine(name + ": " + v) == Named(name, TrimEnd(v))
  {
    NameTrims(name);
    LineTrims(name, v);
    TrimEndTwice(v);
    TrimmedSplits(name + ": " + v, name, TrimEnd(v));
  }

  lemma NamedSets(dir: string, s: State, k: Key, v: string)
    ensures SetNamed(dir, s, KeyName(k), v) == SetField(dir, s, k, v) && KeyText(KeyName(k))
  {
    KeyBack(k);
  }

  /** A printed field is read as its key and the value without space at the end. */
  lemma FieldRead(dir: string, s: State, f: Field, nr: nat)
    ensures ReadLine(dir, s, FieldLine(f), nr) == SetField(dir, s, f.key, TrimEnd(f.value))
  {
    NamedSets(dir, s, f.key, TrimEnd(f.value));
    LineSplits(KeyName(f.key), f.value);
  }

  // ---- all lines ----

  /** Setting one field after the other, up to the first error. */
  function SetAll(dir: string, s: State, fs: seq<Field>): Result<State>
    decreases |fs|
  {
    if fs == [] then Ok(s)
    else match SetAll(dir, s, fs[..|fs| - 1])
      case Ok(t) => SetField(dir, t, fs[|fs| - 1].key, TrimEnd(fs[|fs| - 1].value))
      case Err(e) => Err(e)
  }

  lemma LastField(dir: string, s: State, ls: seq<string>, f: Field)
    requires ls != [] && ls[|ls| - 1] == FieldLine(f) && ReadLines(dir, s, ls[..|ls| - 1]).Ok?
    ensures ReadLines(dir, s, ls) == SetField(dir, ReadLines(dir, s, ls[..|ls| - 1]).value, f.key, TrimEnd(f.value))
  {
    FieldRead(dir, ReadLines(dir, s, ls[..|ls| - 1]).value, f, |ls|);
  }

  lemma LastOfAll(dir: string, s: State, ls: seq<string>, fs: seq<Field>)
    requires fs != [] && |ls| == |fs| && ls[|ls| - 1] == FieldLine(fs[|fs| - 1])
    requires ReadLines(dir, s, ls[..|ls| - 1]) == SetAll(dir, s, fs[..|fs| - 1])
    ensures ReadLines(dir, s, ls) == SetAll(dir, s, fs)
  {
    if SetAll(dir, s, fs[..|fs| - 1]).Ok? { LastField(dir, s, ls, fs[|fs| - 1]); }
  }

  lemma {:induction false} LinesSetAll(dir: string, s: State, fs: seq<Field>)
    ensures ReadLines(dir, s, FieldLines(fs)) == SetAll(dir, s, fs)
    decreases |fs|
  {
    if fs != [] {
      var init := fs[..|fs| - 1];
      LinesSetAll(dir, s, init);
      assert FieldLines(fs)[..|fs| - 1] == FieldLines(init);
      LastOfAll(dir, s, FieldLines(fs), fs);
    }
  }

  lemma ThenField(dir: string, s: State, fs: seq<Field>, t: State, f: Field)
    requires SetAll(dir, s, fs) == Ok(t)
    ensures SetAll(dir, s, fs + [f]) == SetField(dir, t, f.key, TrimEnd(f.value))
  {
    assert (fs + [f])[..|fs|] == fs;
  }

  lemma ThenOption(dir: string, s: State, fs: seq<Field>, t: State, k: Key, v: Option<string>)
    requires SetAll(dir, s, fs) == Ok(t)
    ensures SetAll(dir, s, fs + OptField(k, v)) == if v.Some? then SetField(dir, t, k, TrimEnd(v.value)) else Ok(t)
  {
    if v.Some? {
      ThenField(dir, s, fs, t, Field(k, v.value));
    } else {
      assert fs + OptField(k, v) == fs;
    }
  }

  // ---- what the parser produces ----

  /** Values on one line, references without space. */
  ghost predicate Clean(n: NarInfo) {
    && OneLine(n.storePath) && OneLine(n.url) && OneLine(n.narHash)
    && (n.fileHash.Some? ==> OneLine(n.fileHash.value))
    && (forall k :: 0 <= k < |n.references| ==> NoSpace(n.references[k]))
    && (n.deriver.Some? ==> OneLine(n.deriver.value))
    && (n.ca.Some? ==> OneLine(n.ca.value))
    && (forall k :: 0 <= k < |n.sigs| ==> OneLine(n.sigs[k]))
  }

  lemma SetFieldClean(dir: string, s: State, k: Key, v: string)
    requires Clean(s.out) && OneLine(v) && SetField(dir, s, k, v).Ok?
    ensures Clean(SetField(dir, s, k, v).value.out)
  {
    NewPathText(dir, v);
    if k.KReferences? {
      var ws := Words(v);
      forall i | 0 <= i < |ws| ensures NoSpace(Paths(dir, ws)[i]) {
        NewPathText(dir, ws[i]);
      }
    }
  }

  lemma {:induction false} TrimStartSuffix(s: string)
    ensures |TrimStart(s)| <= |s| && TrimStart(s) == s[|s| - |TrimStart(s)|..]
  {
    if s != [] && IsSpace(s[0]) {
      TrimStartSuffix(s[1..]);
      assert s[1..][|s[1..]| - |TrimStart(s)|..] == s[|s| - |TrimStart(s)|..];
    }
  }

  lemma TrimEndOneLine(s: string)
    requires '\n' !in s
    ensures OneLine(TrimEnd(s))
  {
    TrimEndOk(s);
    assert forall c :: c in TrimEnd(s) ==> c in s;
  }

  lemma SplitOneLine(raw: string)
    requires '\n' !in raw && SplitLine(raw).Named?
    ensures OneLine(SplitLine(raw).value)
  {
    TrimStartSuffix(raw);
    assert forall c :: c in TrimStart(raw) ==> c in raw;
    TrimEndOneLine(TrimStart(raw));
    var line := Trim(raw);
    var v := line[Find(line, ':') + 1..];
    assert forall c :: c in v ==> c in line;
    var w := if HasPrefix(v, " ") then v[1..] else v;
    assert forall c :: c in w ==> c in v;
    TrimEndOneLine(w);
  }

  lemma ReadLineClean(dir: string, s: State, raw: string, nr: nat)
    requires Clean(s.out) && '\n' !in raw && ReadLine(dir, s, raw, nr).Ok?
    ensures Clean(ReadLine(dir, s, raw, nr).value.out)
  {
    var l := SplitLine(raw);
    if l.Named? {
      SplitOneLine(raw);
      var k := KeyOf(l.name);
      if k.Some? {
        SetFieldClean(dir, s, k.value, l.value);
      }
    }
  }

  lemma {:induction false} ReadLinesClean(dir: string, s: State, ls: seq<string>)
    requires Clean(s.out) && ReadLines(dir, s, ls).Ok?
    requires forall k :: 0 <= k < |ls| ==> '\n' !in ls[k]
    ensures Clean(ReadLines(dir, s, ls).value.out)
    decreases |ls|
  {
    if ls != [] {
      var init := ls[..|ls| - 1];
      ReadLinesClean(dir, s, init);
      ReadLineClean(dir, ReadLines(dir, s, init).value, ls[|ls| - 1], |ls|);
    }
  }

  lemma StartClean(dir: string)
    ensures Clean(Start(dir).out)
  {
    PlaceholderOneLine();
    NewPathText(dir, PLACEHOLDER);
  }

  lemma PlaceholderOneLine()
    ensures OneLine(PLACEHOLDER)
  {
  }

  /** Whatever is parsed, the values of the result fit on their lines. */
  lemma ParsedIsClean(dir: string, input: string)
    requires Parse(dir, input).Ok?
    ensures Clean(Parse(dir, input).value)
  {
    StartClean(dir);
    forall k | 0 <= k < |Lines(input)| ensures '\n' !in Lines(input)[k] {
      LinesHaveNoBreak(input, k);
    }
    ReadLinesClean(dir, Start(dir), Lines(input));
  }

  // ---- reading back what was printed ----

  /** What comes back for a clean narinfo. */
  function Reread(dir: string, n: NarInfo): NarInfo {
    n.(storePath := NewPath(dir, PrintPath(dir, n.storePath)),
       references := Paths(dir, NonEmpty(n.references)),
       deriver := if n.deriver.Some? && n.deriver.value != [] then Some(NewPath(dir, n.deriver.value)) else None,
       ca := if n.ca.Some? && n.ca.value != [] then n.ca else None,
       sigs := NonEmpty(n.sigs))
  }

  lemma PrintedOneLine(dir: string, b: string)
    requires '\n' !in dir && OneLine(b)
    ensures OneLine(PrintPath(dir, b))
  {
    var p := PrintPath(dir, b);
    assert p[|p| - 1] == if b == [] then '/' else b[|b| - 1];
  }

  // One field at a time, after any fields `fs` that were read to `t`.

  lemma ReadStorePath(dir: string, s: State, fs: seq<Field>, t: State, p: string)
    requires SetAll(dir, s, fs) == Ok(t) && OneLine(p)
    ensures SetAll(dir, s, fs + [Field(KStorePath, p)])
         == Ok(t.(out := t.out.(storePath := NewPath(dir, p)), haveStorePath := true))
  {
    ThenField(dir, s, fs, t, Field(KStorePath, p));
  }

  lemma ReadUrl(dir: string, s: State, fs: seq<Field>, t: State, v: string)
    requires SetAll(dir, s, fs) == Ok(t) && OneLine(v)
    ensures SetAll(dir, s, fs + [Field(KURL, v)]) == Ok(t.(out := t.out.(url := v), haveUrl := true))
  {
    ThenField(dir, s, fs, t, Field(KURL, v));
  }

  lemma ReadCompressed(dir: string, s: State, fs: seq<Field>, t: State, v: string, c: Compression)
    requires SetAll(dir, s, fs) == Ok(t) && OneLine(v) && ReadCompression(v) == Ok(c)
    ensures SetAll(dir, s, fs + [Field(KCompression, v)])
         == Ok(t.(out := t.out.(compression := c), haveCompression := true))
  {
    ThenField(dir, s, fs, t, Field(KCompression, v));
  }

  lemma ReadFileHash(dir: string, s: State, fs: seq<Field>, t: State, v: Option<string>)
    requires SetAll(dir, s, fs) == Ok(t) && t.out.fileHash.None? && (v.Some? ==> OneLine(v.value))
    ensures SetAll(dir, s, fs + OptField(KFileHash, v)) == Ok(t.(out := t.out.(fileHash := v)))
  {
    ThenOption(dir, s, fs, t, KFileHash, v);
  }

  lemma ReadFileSize(dir: string, s: State, fs: seq<Field>, t: State, v: Option<U64>)
    requires SetAll(dir, s, fs) == Ok(t) && t.out.fileSize.None?
    ensures SetAll(dir, s, fs + OptField(KFileSize, SizeText(v))) == Ok(t.(out := t.out.(fileSize := v)))
  {
    ThenOption(dir, s, fs, t, KFileSize, SizeText(v));
    if v.Some? { ReadDigitsBack(v.value); }
  }

  lemma ReadNarHash(dir: string, s: State, fs: seq<Field>, t: State, v: string)
    requires SetAll(dir, s, fs) == Ok(t) && OneLine(v)
    ensures SetAll(dir, s, fs + [Field(KNarHash, v)]) == Ok(t.(out := t.out.(narHash := v), haveNarHash := true))
  {
    ThenField(dir, s, fs, t, Field(KNarHash, v));
  }

  lemma ReadNarSize(dir: string, s: State, fs: seq<Field>, t: State, v: U64)
    requires SetAll(dir, s, fs) == Ok(t)
    ensures SetAll(dir, s, fs + [Field(KNarSize, Digits(v))])
         == Ok(t.(out := t.out.(narSize := v), haveNarSize := true))
  {
    ThenField(dir, s, fs, t, Field(KNarSize, Digits(v)));
    ReadDigitsBack(v);
  }

  lemma ReadReferences(dir: string, s: State, fs: seq<Field>, t: State, refs: seq<StorePath>)
    requires SetAll(dir, s, fs) == Ok(t) && forall k :: 0 <= k < |refs| ==> NoSpace(refs[k])
    ensures SetAll(dir, s, fs + [Field(KReferences, Join(refs))])
         == Ok(t.(out := t.out.(references := Paths(dir, NonEmpty(refs)))))
  {
    ThenField(dir, s, fs, t, Field(KReferences, Join(refs)));
    WordsJoin(refs);
    WordsTrimEnd(Join(refs));
  }

  lemma ReadDeriver(dir: string, s: State, fs: seq<Field>, t: State, v: Option<StorePath>)
    requires SetAll(dir, s, fs) == Ok(t) && t.out.deriver.None? && (v.Some? ==> OneLine(v.value))
    ensures SetAll(dir, s, fs + OptField(KDeriver, v))
         == Ok(t.(out := t.out.(deriver := if v.Some? && v.value != [] then Some(NewPath(dir, v.value)) else None)))
  {
    ThenOption(dir, s, fs, t, KDeriver, v);
  }

  lemma ReadCa(dir: string, s: State, fs: seq<Field>, t: State, v: Option<string>)
    requires SetAll(dir, s, fs) == Ok(t) && t.out.ca.None? && (v.Some? ==> OneLine(v.value))
    ensures SetAll(dir, s, fs + OptField(KCA, v))
         == Ok(t.(out := t.out.(ca := if v.Some? && v.value != [] then v else None)))
  {
    ThenOption(dir, s, fs, t, KCA, v);
  }

  lemma ReadSig(dir: string, s: State, fs: seq<Field>, t: State, v: string)
    requires SetAll(dir, s, fs) == Ok(t) && OneLine(v)
    ensures SetAll(dir, s, fs + [Field(KSig, v)])
         == Ok(t.(out := t.out.(sigs := t.out.sigs + if v == [] then [] else [v])))
  {
    ThenField(dir, s, fs, t, Field(KSig, v));
    assert t.out.sigs + [] == t.out.sigs;
  }

  /** Nothing was read yet. */
  predicate Fresh(s: State) {
    s.out.fileHash.None? && s.out.fileSize.None? && s.out.deriver.None? && s.out.ca.None? && s.out.sigs == []
  }

  function HeadState(dir: string, s: State, n: NarInfo): State {
    s.(out := s.out.(storePath := NewPath(dir, PrintPath(dir, n.storePath)), url := n.url, compression := n.compression,
                     fileHash := n.fileHash, fileSize := n.fileSize),
       haveStorePath := true, haveUrl := true, haveCompression := true)
  }

  lemma HeadRead(dir: string, s: State, n: NarInfo)
    requires Clean(n) && '\n' !in dir && Fresh(s)
    ensures SetAll(dir, s, HeadFields(dir, n)) == Ok(HeadState(dir, s, n))
  {
    var p, c := PrintPath(dir, n.storePath), CompressionName(n.compression);
    PrintedOneLine(dir, n.storePath);
    CompressionBack(n.compression);
    var f1, f2, f3 := Field(KStorePath, p), Field(KURL, n.url), Field(KCompression, c);
    var s1 := s.(out := s.out.(storePath := NewPath(dir, p)), haveStorePath := true);
    var s2 := s1.(out := s1.out.(url := n.url), haveUrl := true);
    var s3 := s2.(out := s2.out.(compression := n.compression), haveCompression := true);
    var s4 := s3.(out := s3.out.(fileHash := n.fileHash));
    ReadStorePath(dir, s, [], s, p);
    ReadUrl(dir, s, [] + [f1], s1, n.url);
    ReadCompressed(dir, s, [] + [f1] + [f2], s2, c, n.compression);
    ReadFileHash(dir, s, [] + [f1] + [f2] + [f3], s3, n.fileHash);
    ReadFileSize(dir, s, [] + [f1] + [f2] + [f3] + OptField(KFileHash, n.fileHash), s4, n.fileSize);
  }

  function BodyState(dir: string, n: NarInfo): State {
    State(Reread(dir, n).(sigs := []), true, true, true, true, true)
  }

  lemma BodyRead(dir: string, s: State, n: NarInfo)
    requires Clean(n) && '\n' !in dir && Fresh(s)
    ensures SetAll(dir, s, BodyFields(dir, n)) == Ok(BodyState(dir, n))
  {
    var t, fs := HeadState(dir, s, n), HeadFields(dir, n);
    HeadRead(dir, s, n);
    var f1, f2, f3 := Field(KNarHash, n.narHash), Field(KNarSize, Digits(n.narSize)),
        Field(KReferences, Join(n.references));
    var s1 := t.(out := t.out.(narHash := n.narHash), haveNarHash := true);
    var s2 := s1.(out := s1.out.(narSize := n.narSize), haveNarSize := true);
    var s3 := s2.(out := s2.out.(references := Paths(dir, NonEmpty(n.references))));
    var s4 := s3.(out := s3.out.(deriver := Reread(dir, n).deriver));
    ReadNarHash(dir, s, fs, t, n.narHash);
    ReadNarSize(dir, s, fs + [f1], s1, n.narSize);
    ReadReferences(dir, s, fs + [f1] + [f2], s2, n.references);
    ReadDeriver(dir, s, fs + [f1] + [f2] + [f3], s3, n.deriver);
    ReadCa(dir, s, fs + [f1] + [f2] + [f3] + OptField(KDeriver, n.deriver), s4, n.ca);
  }

  lemma {:induction false} NonEmptyEnd(ws: seq<string>, w: string)
    ensures NonEmpty(ws + [w]) == NonEmpty(ws) + if w == [] then [] else [w]
  {
    if ws == [] {
      assert ws + [w] == [w];
      assert NonEmpty([w][1..]) == [];
    } else {
      assert (ws + [w])[1..] == ws[1..] + [w];
      NonEmptyEnd(ws[1..], w);
    }
  }

  lemma SigsEnd(fs: seq<Field>, read: seq<string>, init: seq<string>, x: string)
    ensures fs + SigFields(init + [x]) == fs + SigFields(init) + [Field(KSig, x)]
    ensures read + NonEmpty(init + [x]) == read + NonEmpty(init) + if x == [] then [] else [x]
  {
    assert (init + [x])[..|init|] == init;
    NonEmptyEnd(init, x);
  }

  lemma {:induction false} SigsRead(dir: string, s: State, fs: seq<Field>, t: State, sigs: seq<string>)
    requires SetAll(dir, s, fs) == Ok(t) && forall k :: 0 <= k < |sigs| ==> OneLine(sigs[k])
    ensures SetAll(dir, s, fs + SigFields(sigs)) == Ok(t.(out := t.out.(sigs := t.out.sigs + NonEmpty(sigs))))
    decreases |sigs|
  {
    if sigs == [] {
      assert fs + SigFields(sigs) == fs;
      assert t.out.sigs + NonEmpty(sigs) == t.out.sigs;
    } else {
      var init, x := sigs[..|sigs| - 1], sigs[|sigs| - 1];
      SigsRead(dir, s, fs, t, init);
      SigsEnd(fs, t.out.sigs, init, x);
      assert sigs == init + [x];
      ReadSig(dir, s, fs + SigFields(init), t.(out := t.out.(sigs := t.out.sigs + NonEmpty(init))), x);
    }
  }

  lemma {:induction false} SigLinesUnbroken(sigs: seq<string>, k: nat)
    requires k < |SigFields(sigs)| && forall i :: 0 <= i < |sigs| ==> '\n' !in sigs[i]
    ensures '\n' !in SigFields(sigs)[k].value
    decreases |sigs|
  {
    if sigs != [] && k < |SigFields(sigs[..|sigs| - 1])| {
      SigLinesUnbroken(sigs[..|sigs| - 1], k);
    }
  }

  lemma {:induction false} JoinUnbroken(ws: seq<string>)
    requires forall k :: 0 <= k < |ws| ==> NoSpace(ws[k])
    ensures '\n' !in Join(ws)
  {
    assert IsSpace('\n');
    if |ws| > 1 {
      JoinUnbroken(ws[1..]);
    }
  }

  predicate Unbroken(fs: seq<Field>) { forall k :: 0 <= k < |fs| ==> '\n' !in fs[k].value }

  lemma HeadUnbroken(dir: string, n: NarInfo)
    requires Clean(n) && '\n' !in dir
    ensures Unbroken(HeadFields(dir, n))
  {
    PrintedOneLine(dir, n.storePath);
    CompressionBack(n.compression);
    if n.fileSize.Some? { ReadDigitsBack(n.fileSize.value); }
  }

  lemma BodyUnbroken(dir: string, n: NarInfo)
    requires Clean(n) && Unbroken(HeadFields(dir, n))
    ensures Unbroken(BodyFields(dir, n))
  {
    JoinUnbroken(n.references);
    ReadDigitsBack(n.narSize);
  }

  lemma FieldsUnbroken(dir: string, n: NarInfo)
    requires Clean(n) && '\n' !in dir
    ensures Unbroken(Fields(dir, n))
  {
    HeadUnbroken(dir, n);
    BodyUnbroken(dir, n);
    forall k | 0 <= k < |SigFields(n.sigs)| ensures '\n' !in SigFields(n.sigs)[k].value { SigLinesUnbroken(n.sigs, k); }
  }

  lemma LinesOfText(fs: seq<Field>)
    requires Unbroken(fs)
    ensures Lines(TextOf(fs)) == FieldLines(fs)
  {
    forall k | 0 <= k < |fs| ensures '\n' !in FieldLines(fs)[k] {
      KeyBack(fs[k].key);
      assert IsSpace('\n');
    }
    LinesUnlines(FieldLines(fs));
  }

  lemma AllRead(dir: string, s: State, n: NarInfo)
    requires Clean(n) && '\n' !in dir && Fresh(s)
    ensures SetAll(dir, s, Fields(dir, n)) == Ok(State(Reread(dir, n), true, true, true, true, true))
  {
    BodyRead(dir, s, n);
    SigsRead(dir, s, BodyFields(dir, n), BodyState(dir, n), n.sigs);
    assert [] + NonEmpty(n.sigs) == NonEmpty(n.sigs);
  }

  /** Printing a clean narinfo and parsing the text always succeeds, and gives the
      narinfo back but for empty entries and re-read paths. */
  lemma PrintThenParse(dir: string, n: NarInfo)
    requires Clean(n) && '\n' !in dir
    ensures Parse(dir, Rendered(dir, n)) == Ok(Reread(dir, n))
  {
    FieldsUnbroken(dir, n);
    LinesOfText(Fields(dir, n));
    LinesSetAll(dir, Start(dir), Fields(dir, n));
    AllRead(dir, Start(dir), n);
  }

  // ---- the round trip ----

  /** No empty entry, and no path that would be taken for a full one. */
  ghost predicate Fits(dir: string, n: NarInfo) {
    && (EndsWithSlash(dir) || !HasPrefix(n.storePath, "/"))
    && (forall k :: 0 <= k < |n.references| ==> n.references[k] != [] && IsBase(dir, n.references[k]))
    && (n.deriver.Some? ==> n.deriver.value != [] && IsBase(dir, n.deriver.value))
    && (n.ca.Some? ==> n.ca.value != [])
    && (forall k :: 0 <= k < |n.sigs| ==> n.sigs[k] != [])
  }

  lemma PathsBack(dir: string, refs: seq<StorePath>)
    ensures Paths(dir, NonEmpty(refs)) == refs
      <==> forall k :: 0 <= k < |refs| ==> refs[k] != [] && IsBase(dir, refs[k])
  {
    NonEmptyAll(refs);
    forall k | 0 <= k < |refs| ensures NewPath(dir, refs[k]) == refs[k] <==> IsBase(dir, refs[k]) {
      BaseIsFixed(dir, refs[k]);
    }
    if Paths(dir, NonEmpty(refs)) == refs {
      assert |NonEmpty(refs)| == |refs|;
    }
  }

  lemma RereadSame(dir: string, n: NarInfo)
    ensures Reread(dir, n) == n <==> Fits(dir, n)
  {
    PrintedPath(dir, n.storePath);
    PathsBack(dir, n.references);
    if n.deriver.Some? { BaseIsFixed(dir, n.deriver.value); }
    NonEmptyAll(n.sigs);
  }

  /** A narinfo comes back from its own text, field by field and in order, if and
      only if its values fit on their lines, no optional or listed value is empty,
      and its paths are base names. */
  lemma RoundTripExactly(dir: string, n: NarInfo)
    requires '\n' !in dir
    ensures Parse(dir, Rendered(dir, n)) == Ok(n) <==> Clean(n) && Fits(dir, n)
  {
    if Parse(dir, Rendered(dir, n)) == Ok(n) {
      ParsedIsClean(dir, Rendered(dir, n));
    }
    if Clean(n) {
      PrintThenParse(dir, n);
      RereadSame(dir, n);
    }
  }

  /** Text that has something in it and no space. */
  predicate Word(s: string) { s != [] && NoSpace(s) }

  lemma WordOnLine(s: string)
    requires Word(s)
    ensures OneLine(s)
  {
    assert s[|s| - 1] in s && IsSpace('\n');
  }

  ghost predicate Worded(dir: string, n: NarInfo) {
    && Word(n.storePath) && IsBase(dir, n.storePath) && Word(n.url) && Word(n.narHash)
    && (n.fileHash.Some? ==> Word(n.fileHash.value))
    && (forall k :: 0 <= k < |n.references| ==> Word(n.references[k]) && IsBase(dir, n.references[k]))
    && (n.deriver.Some? ==> Word(n.deriver.value) && IsBase(dir, n.deriver.value))
    && (n.ca.Some? ==> Word(n.ca.value))
    && (forall k :: 0 <= k < |n.sigs| ==> Word(n.sigs[k]))
  }

  /** Every narinfo made of words comes back, with any sizes, options and lists. */
  lemma RoundTrip(dir: string, n: NarInfo)
    requires '\n' !in dir && Worded(dir, n)
    ensures Parse(dir, Rendered(dir, n)) == Ok(n)
  {
    WordOnLine(n.storePath);
    WordOnLine(n.url);
    WordOnLine(n.narHash);
    if n.fileHash.Some? { WordOnLine(n.fileHash.value); }
    if n.deriver.Some? { WordOnLine(n.deriver.value); }
    if n.ca.Some? { WordOnLine(n.ca.value); }
    forall k | 0 <= k < |n.sigs| ensures OneLine(n.sigs[k]) { WordOnLine(n.sigs[k]); }
    RoundTripExactly(dir, n);
  }
}
