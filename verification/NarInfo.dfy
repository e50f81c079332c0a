/**
 The narinfo printer and parser. `dir` is the store directory.
 */
module NarInfo {
  import opened Collections
  import opened Text

  datatype Result<T> = Ok(value: T) | Err(error: Error)

  datatype Error =
    | MissingField(field: Key)
    | InvalidField(value: string)
    | Line(line: nat)
    | Int(field: Key, number: Number)

  datatype Compression = Plain | Xz | Bzip2 | Brotli | Zstd

  /** A store path is its base name. */
  type StorePath = string

  type U64 = x: nat | x < MAX

  datatype NarInfo = NarInfo(
    storePath: StorePath,
    url: string,
    compression: Compression,
    fileHash: Option<string>,
    fileSize: Option<U64>,
    narHash: string,
    narSize: U64,
    references: seq<StorePath>,
    deriver: Option<StorePath>,
    ca: Option<string>,
    sigs: seq<string>)

  // ---- store paths ----

  predicate HasPrefix(s: string, p: string) { |p| <= |s| && s[..|p|] == p }

  function Slash(s: string): string { if HasPrefix(s, "/") then s[1..] else s }

  predicate EndsWithSlash(dir: string) { dir != [] && dir[|dir| - 1] == '/' }

  function StoreDir(dir: string): string { if EndsWithSlash(dir) then dir else dir + "/" }

  function NewPath(dir: string, p: string): StorePath {
    if HasPrefix(p, StoreDir(dir)) then Slash(p[|StoreDir(dir)|..]) else Slash(p)
  }

  function PrintPath(dir: string, p: StorePath): string { dir + "/" + p }

  /** A base name that is not taken for a full path. */
  predicate IsBase(dir: string, b: string) { !HasPrefix(b, "/") && !HasPrefix(b, StoreDir(dir)) }

  lemma BaseIsFixed(dir: string, b: string)
    ensures NewPath(dir, b) == b <==> IsBase(dir, b)
  {
    assert |StoreDir(dir)| > 0;
    if !IsBase(dir, b) {
      assert |NewPath(dir, b)| < |b|;
    }
  }

  /** Printing and reading a store path gives it back, unless its base name starts
      with a slash and the store directory does not end with one. */
  lemma PrintedPath(dir: string, b: string)
    ensures NewPath(dir, PrintPath(dir, b)) == b <==> (EndsWithSlash(dir) || !HasPrefix(b, "/"))
  {
    var p := PrintPath(dir, b);
    if EndsWithSlash(dir) {
      assert p[..|dir|] == dir && p[|dir|..] == "/" + b;
      assert ("/" + b)[1..] == b && ("/" + b)[..1] == "/";
    } else {
      assert p[..|dir| + 1] == dir + "/" && p[|dir| + 1..] == b;
    }
  }

  /** A path is the end of the text it was read from. */
  lemma NewPathSuffix(dir: string, p: string)
    ensures |NewPath(dir, p)| <= |p| && NewPath(dir, p) == p[|p| - |NewPath(dir, p)|..]
  {
    var n := if HasPrefix(p, StoreDir(dir)) then |StoreDir(dir)| else 0;
    var q := p[n..];
    assert NewPath(dir, p) == Slash(q);
    assert Slash(q) == if HasPrefix(q, "/") then p[n + 1..] else q;
  }

  lemma NewPathText(dir: string, p: string)
    ensures OneLine(p) ==> OneLine(NewPath(dir, p))
    ensures NoSpace(p) ==> NoSpace(NewPath(dir, p))
  {
    NewPathSuffix(dir, p);
    assert forall c :: c in NewPath(dir, p) ==> c in p;
  }

  // ---- compression ----

  function CompressionName(c: Compression): string {
    match c case Plain => "none" case Xz => "xz" case Bzip2 => "bz2" case Brotli => "br" case Zstd => "zstd"
  }

  function LowerChar(c: char): char {
    if 'A' <= c <= 'Z' then (c as int + 32) as char else c
  }

  function Lower(s: string): string {
    if s == [] then [] else [LowerChar(s[0])] + Lower(s[1..])
  }

  function ReadCompression(s: string): Result<Compression> {
    var t := Lower(Trim(s));
    if t == "none" then Ok(Plain)
    else if t == "xz" then Ok(Xz)
    else if t == "bz2" then Ok(Bzip2)
    else if t == "br" then Ok(Brotli)
    else if t == "zstd" || t == "zst" then Ok(Zstd)
    else Err(InvalidField(t))
  }

  lemma {:induction false} LowerSame(s: string)
    requires forall k :: 0 <= k < |s| ==> 'a' <= s[k] <= 'z' || '0' <= s[k] <= '9'
    ensures Lower(s) == s
  {
    if s != [] {
      LowerSame(s[1..]);
    }
  }

  lemma CompressionBack(c: Compression)
    ensures ReadCompression(CompressionName(c)) == Ok(c) && OneLine(CompressionName(c))
  {
    var s := CompressionName(c);
    LowerSame(s);
    assert !IsSpace(s[0]) && !IsSpace(s[|s| - 1]) && '\n' !in s;
    match c case Plain => case Xz => case Bzip2 => case Brotli => case Zstd =>
  }

  // ---- fields ----

  datatype Key =
    | KStorePath | KURL | KCompression | KFileHash | KFileSize | KNarHash | KNarSize | KReferences
    | KDeriver | KCA | KSig

  function KeyName(k: Key): string {
    match k
    case KStorePath => "StorePath" case KURL => "URL" case KCompression => "Compression"
    case KFileHash => "FileHash" case KFileSize => "FileSize" case KNarHash => "NarHash"
    case KNarSize => "NarSize" case KReferences => "References" case KDeriver => "Deriver"
    case KCA => "CA" case KSig => "Sig"
  }

  function KeyOf(s: string): Option<Key> {
    if s == "StorePath" then Some(KStorePath)
    else if s == "URL" then Some(KURL)
    else if s == "Compression" then Some(KCompression)
    else if s == "FileHash" then Some(KFileHash)
    else if s == "FileSize" then Some(KFileSize)
    else if s == "NarHash" then Some(KNarHash)
    else if s == "NarSize" then Some(KNarSize)
    else if s == "References" then Some(KReferences)
    else if s == "Deriver" then Some(KDeriver)
    else if s == "CA" then Some(KCA)
    else if s == "Sig" then Some(KSig)
    else None
  }

  predicate KeyText(s: string) {
    s != [] && s[0] != '#' && ':' !in s && NoSpace(s)
  }

  lemma KeyBack(k: Key)
    ensures KeyOf(KeyName(k)) == Some(k) && KeyText(KeyName(k))
  {
  }

  datatype Field = Field(key: Key, value: string)

  function FieldLine(f: Field): string { KeyName(f.key) + ": " + f.value }

  function FieldLines(fs: seq<Field>): (r: seq<string>)
    ensures |r| == |fs| && forall k :: 0 <= k < |fs| ==> r[k] == FieldLine(fs[k])
  {
    if fs == [] then [] else [FieldLine(fs[0])] + FieldLines(fs[1..])
  }

  /** The text of a list of fields, one on each line. */
  function TextOf(fs: seq<Field>): string { Unlines(FieldLines(fs)) }

  lemma TextOfEnd(fs: seq<Field>, f: Field)
    ensures TextOf(fs + [f]) == TextOf(fs) + FieldLine(f) + "\n"
  {
    assert FieldLines(fs + [f]) == FieldLines(fs) + [FieldLine(f)];
    UnlinesConcat(FieldLines(fs), [FieldLine(f)]);
    assert [FieldLine(f)][1..] == [];
  }

  // ---- printing ----

  function OptField(k: Key, v: Option<string>): seq<Field> {
    if v.Some? then [Field(k, v.value)] else []
  }

  function SizeText(n: Option<U64>): Option<string> { if n.Some? then Some(Digits(n.value)) else None }

  function SigFields(sigs: seq<string>): seq<Field> {
    if sigs == [] then [] else SigFields(sigs[..|sigs| - 1]) + [Field(KSig, sigs[|sigs| - 1])]
  }

  function HeadFields(dir: string, n: NarInfo): seq<Field> {
    []
    + [Field(KStorePath, PrintPath(dir, n.storePath))]
    + [Field(KURL, n.url)]
    + [Field(KCompression, CompressionName(n.compression))]
    + OptField(KFileHash, n.fileHash)
    + OptField(KFileSize, SizeText(n.fileSize))
  }

  function BodyFields(dir: string, n: NarInfo): seq<Field> {
    HeadFields(dir, n)
    + [Field(KNarHash, n.narHash)]
    + [Field(KNarSize, Digits(n.narSize))]
    + [Field(KReferences, Join(n.references))]
    + OptField(KDeriver, n.deriver)
    + OptField(KCA, n.ca)
  }

  function Fields(dir: string, n: NarInfo): seq<Field> { BodyFields(dir, n) + SigFields(n.sigs) }

  function Rendered(dir: string, n: NarInfo): string { TextOf(Fields(dir, n)) }

  /** Appends one line to the buffer. */
  method WriteLine(o: string, k: Key, v: string, ghost fs: seq<Field>) returns (r: string)
    requires o == TextOf(fs)
    ensures r == TextOf(fs + [Field(k, v)])
  {
    TextOfEnd(fs, Field(k, v));
    r := o + KeyName(k) + ": " + v + "\n";
  }

  method WriteOption(o: string, k: Key, v: Option<string>, ghost fs: seq<Field>) returns (r: string)
    requires o == TextOf(fs)
    ensures r == TextOf(fs + OptField(k, v))
  {
    r := o;
    if v.Some? {
      r := WriteLine(r, k, v.value, fs);
    } else {
      assert fs + OptField(k, v) == fs;
    }
  }

  method WriteSigs(o: string, sigs: seq<string>, ghost fs: seq<Field>) returns (r: string)
    requires o == TextOf(fs)
    ensures r == TextOf(fs + SigFields(sigs))
  {
    r := o;
    assert fs + SigFields(sigs[..0]) == fs;
    for i := 0 to |sigs|
      invariant r == TextOf(fs + SigFields(sigs[..i]))
    {
      assert sigs[..i + 1][..i] == sigs[..i];
      assert fs + SigFields(sigs[..i + 1]) == fs + SigFields(sigs[..i]) + [Field(KSig, sigs[i])];
      r := WriteLine(r, KSig, sigs[i], fs + SigFields(sigs[..i]));
    }
    assert sigs[..|sigs|] == sigs;
  }

  method Render(dir: string, n: NarInfo) returns (o: string)
    ensures o == Rendered(dir, n)
  {
    ghost var fs: seq<Field> := [];
    o := "";
    o := WriteLine(o, KStorePath, PrintPath(dir, n.storePath), fs);
    fs := fs + [Field(KStorePath, PrintPath(dir, n.storePath))];
    o := WriteLine(o, KURL, n.url, fs);
    fs := fs + [Field(KURL, n.url)];
    o := WriteLine(o, KCompression, CompressionName(n.compression), fs);
    fs := fs + [Field(KCompression, CompressionName(n.compression))];
    o := WriteOption(o, KFileHash, n.fileHash, fs);
    o := WriteOption(o, KFileSize, SizeText(n.fileSize), fs + OptField(KFileHash, n.fileHash));
    fs := HeadFields(dir, n);
    o := WriteLine(o, KNarHash, n.narHash, fs);
    fs := fs + [Field(KNarHash, n.narHash)];
    o := WriteLine(o, KNarSize, Digits(n.narSize), fs);
    fs := fs + [Field(KNarSize, Digits(n.narSize))];
    o := WriteLine(o, KReferences, Join(n.references), fs);
    fs := fs + [Field(KReferences, Join(n.references))];
    o := WriteOption(o, KDeriver, n.deriver, fs);
    o := WriteOption(o, KCA, n.ca, fs + OptField(KDeriver, n.deriver));
    o := WriteSigs(o, n.sigs, BodyFields(dir, n));
  }

  // ---- parsing ----

  /** The record being filled and which of the required fields were seen. */
  datatype State = State(
    out: NarInfo, haveStorePath: bool, haveUrl: bool, haveCompression: bool, haveNarHash: bool, haveNarSize: bool)

  const PLACEHOLDER := "aaaaaaaaaaaaaaaaaaaaaaaaaaaaaaaa-bla"

  function Blank(dir: string): NarInfo {
    NarInfo(NewPath(dir, PLACEHOLDER), "", Plain, None, None, "", 0, [], None, None, [])
  }

  function Start(dir: string): State { State(Blank(dir), false, false, false, false, false) }

  function Paths(dir: string, ws: seq<string>): (r: seq<StorePath>)
    ensures |r| == |ws| && forall k :: 0 <= k < |ws| ==> r[k] == NewPath(dir, ws[k])
  {
    if ws == [] then [] else [NewPath(dir, ws[0])] + Paths(dir, ws[1..])
  }

  function NotBlank(v: string): Option<string> { if v == [] then None else Some(v) }

  function SetField(dir: string, s: State, k: Key, v: string): Result<State> {
    match k
    case KStorePath => Ok(s.(out := s.out.(storePath := NewPath(dir, v)), haveStorePath := true))
    case KURL => Ok(s.(out := s.out.(url := v), haveUrl := true))
    case KCompression =>
      (match ReadCompression(v)
       case Ok(c) => Ok(s.(out := s.out.(compression := c), haveCompression := true))
       case Err(e) => Err(e))
    case KFileHash => Ok(s.(out := s.out.(fileHash := Some(v))))
    case KFileSize =>
      var r := ReadU64(v);
      if r.Number? && r.value < MAX then Ok(s.(out := s.out.(fileSize := Some(r.value)))) else Err(Int(k, r))
    case KNarHash => Ok(s.(out := s.out.(narHash := v), haveNarHash := true))
    case KNarSize =>
      var r := ReadU64(v);
      if r.Number? && r.value < MAX then Ok(s.(out := s.out.(narSize := r.value), haveNarSize := true))
        else Err(Int(k, r))
    case KReferences => Ok(s.(out := s.out.(references := Paths(dir, Words(v)))))
    case KDeriver => Ok(s.(out := s.out.(deriver := if v == [] then None else Some(NewPath(dir, v)))))
    case KCA => Ok(s.(out := s.out.(ca := NotBlank(v))))
    case KSig => Ok(if v == [] then s else s.(out := s.out.(sigs := s.out.sigs + [v])))
  }

  /** The value after the colon: one space in front is dropped, and all at the end. */
  function ValueText(v: string): string { TrimEnd(if HasPrefix(v, " ") then v[1..] else v) }

  /** A line that says nothing, a line that is not a field, or a field. */
  datatype LineText = Nothing | NoField | Named(name: string, value: string)

  function SplitLine(raw: string): LineText {
    var line := Trim(raw);
    if line == [] || line[0] == '#' then Nothing
    else
      var i := Find(line, ':');
      if i == |line| then NoField else Named(Trim(line[..i]), ValueText(line[i + 1..]))
  }

  function SetNamed(dir: string, s: State, name: string, v: string): Result<State> {
    match KeyOf(name)
    case Some(k) => SetField(dir, s, k, v)
    case None => Ok(s)
  }

  function ReadLine(dir: string, s: State, raw: string, nr: nat): Result<State> {
    match SplitLine(raw)
    case Nothing => Ok(s)
    case NoField => Err(Line(nr))
    case Named(name, v) => SetNamed(dir, s, name, v)
  }

  /** Lines are numbered from 1, and the first error ends the reading. */
  function ReadLines(dir: string, s: State, ls: seq<string>): Result<State>
    decreases |ls|
  {
    if ls == [] then Ok(s)
    else match ReadLines(dir, s, ls[..|ls| - 1])
      case Ok(t) => ReadLine(dir, t, ls[|ls| - 1], |ls|)
      case Err(e) => Err(e)
  }

  function Finish(s: State): Result<NarInfo> {
    if !s.haveStorePath then Err(MissingField(KStorePath))
    else if !s.haveUrl then Err(MissingField(KURL))
    else if !s.haveCompression then Err(MissingField(KCompression))
    else if !s.haveNarHash then Err(MissingField(KNarHash))
    else if !s.haveNarSize then Err(MissingField(KNarSize))
    else Ok(s.out)
  }

  function Parse(dir: string, input: string): Result<NarInfo> {
    match ReadLines(dir, Start(dir), Lines(input))
    case Ok(s) => Finish(s)
    case Err(e) => Err(e)
  }

  /** An error on one line is the result of the whole. */
  lemma {:induction false} ErrorEnds(dir: string, s: State, ls: seq<string>, k: nat)
    requires k <= |ls| && ReadLines(dir, s, ls[..k]).Err?
    ensures ReadLines(dir, s, ls) == ReadLines(dir, s, ls[..k])
    decreases |ls|
  {
    if k < |ls| {
      assert ls[..|ls| - 1][..k] == ls[..k];
      ErrorEnds(dir, s, ls[..|ls| - 1], k);
    } else {
      assert ls[..k] == ls;
    }
  }

  lemma NextLine(dir: string, s: State, ls: seq<string>, i: nat)
    requires i < |ls| && ReadLines(dir, s, ls[..i]).Ok?
    ensures ReadLines(dir, s, ls[..i + 1]) == ReadLine(dir, ReadLines(dir, s, ls[..i]).value, ls[i], i + 1)
  {
    assert ls[..i + 1][..i] == ls[..i];
  }

  class Parser {
    const dir: string
    var out: NarInfo
    var haveStorePath: bool
    var haveUrl: bool
    var haveCompression: bool
    var haveNarHash: bool
    var haveNarSize: bool

    constructor (dir: string)
      ensures this.dir == dir && View() == Start(dir)
    {
      this.dir := dir;
      out := Blank(dir);
      haveStorePath, haveUrl, haveCompression, haveNarHash, haveNarSize := false, false, false, false, false;
    }

    function View(): State
      reads this
    {
      State(out, haveStorePath, haveUrl, haveCompression, haveNarHash, haveNarSize)
    }

    /** One field; an error leaves the record as it is. */
    method Set(k: Key, v: string) returns (r: Option<Error>)
      modifies this`out, this`haveStorePath, this`haveUrl, this`haveCompression, this`haveNarHash, this`haveNarSize
      ensures SetField(dir, old(View()), k, v) == if r.Some? then Err(r.value) else Ok(View())
      ensures r.Some? ==> View() == old(View())
    {
      r := None;
      match k
      case KStorePath => out := out.(storePath := NewPath(dir, v)); haveStorePath := true;
      case KURL => out := out.(url := v); haveUrl := true;
      case KCompression =>
        var c := ReadCompression(v);
        if c.Err? { return Some(c.error); }
        out := out.(compression := c.value);
        haveCompression := true;
      case KFileHash => out := out.(fileHash := Some(v));
      case KFileSize =>
        var n := ReadU64(v);
        if !n.Number? || n.value >= MAX { return Some(Int(k, n)); }
        out := out.(fileSize := Some(n.value));
      case KNarHash => out := out.(narHash := v); haveNarHash := true;
      case KNarSize =>
        var n := ReadU64(v);
        if !n.Number? || n.value >= MAX { return Some(Int(k, n)); }
        out := out.(narSize := n.value);
        haveNarSize := true;
      case KReferences => out := out.(references := Paths(dir, Words(v)));
      case KDeriver => out := out.(deriver := if v == [] then None else Some(NewPath(dir, v)));
      case KCA => out := out.(ca := NotBlank(v));
      case KSig => if v != [] { out := out.(sigs := out.sigs + [v]); }
    }

    /** The loop over the lines. */
    method ReadAll(lines: seq<string>) returns (r: Option<Error>)
      requires View() == Start(dir)
      modifies this`out, this`haveStorePath, this`haveUrl, this`haveCompression, this`haveNarHash, this`haveNarSize
      ensures ReadLines(dir, Start(dir), lines) == if r.Some? then Err(r.value) else Ok(View())
    {
      for i := 0 to |lines|
        invariant ReadLines(dir, Start(dir), lines[..i]) == Ok(View())
      {
        NextLine(dir, Start(dir), lines, i);
        r := Line(lines[i], i + 1);
        if r.Some? {
          ErrorEnds(dir, Start(dir), lines, i + 1);
          return;
        }
      }
      assert lines[..|lines|] == lines;
      return None;
    }

    /** Reads the lines and then checks that no required field is missing. */
    method FromStr(input: string) returns (r: Result<NarInfo>)
      requires View() == Start(dir)
      modifies this`out, this`haveStorePath, this`haveUrl, this`haveCompression, this`haveNarHash, this`haveNarSize
      ensures r == Parse(dir, input)
    {
      var bad := ReadAll(Lines(input));
      if bad.Some? { return Err(bad.value); }
      if !haveStorePath { return Err(MissingField(KStorePath)); }
      if !haveUrl { return Err(MissingField(KURL)); }
      if !haveCompression { return Err(MissingField(KCompression)); }
      if !haveNarHash { return Err(MissingField(KNarHash)); }
      if !haveNarSize { return Err(MissingField(KNarSize)); }
      return Ok(out);
    }

    method Line(raw: string, nr: nat) returns (r: Option<Error>)
      modifies this`out, this`haveStorePath, this`haveUrl, this`haveCompression, this`haveNarHash, this`haveNarSize
      ensures ReadLine(dir, old(View()), raw, nr) == if r.Some? then Err(r.value) else Ok(View())
    {
      var line := Trim(raw);
      if line == [] || line[0] == '#' { return None; }
      var i := Find(line, ':');
      if i == |line| { return Some(Error.Line(nr)); }
      match KeyOf(Trim(line[..i]))
      case Some(k) => r := Set(k, ValueText(line[i + 1..]));
      case None => return None;
    }
  }
}
