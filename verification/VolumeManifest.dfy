/** The manifest a delivery leaves in a volume: the names it wrote, one a line under a few
    comments, read back tolerantly by the next sync. */
module VolumeManifest {
  import opened Text

  function Block(names: seq<string>): string {
    if names == [] then "" else names[0] + "\n" + Block(names[1..])
  }

  function Title(): (t: string)
    ensures t != "" && t[0] == '#' && '\n' !in t
  {
    var a, b, c := "# Written by Daffa.", " Do not edit: it is", " rewritten on every sync.";
    assert '\n' !in a && '\n' !in b && '\n' !in c;
    a + b + c
  }

  function Render(commit: string, hash: string, names: seq<string>): string {
    Title() + "\n"
    + ("# commit " + commit + "\n" + ("# hash " + hash + "\n" + Block(names)))
  }

  function LineEnd(s: string): (i: nat)
    ensures i <= |s| && (forall k :: 0 <= k < i ==> s[k] != '\n') && (i < |s| ==> s[i] == '\n')
  {
    if s == "" || s[0] == '\n' then 0 else 1 + LineEnd(s[1..])
  }

  function Lines(s: string): (r: seq<string>)
    ensures forall l :: l in r ==> '\n' !in l
    decreases |s|
  {
    var i := LineEnd(s);
    if i == |s| then [s] else [s[..i]] + Lines(s[i + 1..])
  }

  /** Blank lines and comments name nothing. */
  function Names(lines: seq<string>): seq<string> {
    if lines == [] then []
    else
      var line := Trim(lines[0]);
      (if line == "" || line[0] == '#' then [] else [line]) + Names(lines[1..])
  }

  function Parse(s: string): seq<string> { Names(Lines(s)) }

  lemma NamesNext(lines: seq<string>, i: nat, names: seq<string>)
    requires i < |lines|
    ensures var line := Trim(lines[i]);
      names + Names(lines[i..])
      == (if line == "" || line[0] == '#' then names else names + [line]) + Names(lines[i + 1..])
  {
    hide Trim;
    assert lines[i..][0] == lines[i] && lines[i..][1..] == lines[i + 1..];
  }

  lemma NamesDone(lines: seq<string>)
    ensures Names(lines[|lines|..]) == [] && lines[0..] == lines
  {
  }

  /** The loop over split lines. */
  method ParseManifest(s: string) returns (names: seq<string>)
    ensures names == Parse(s)
  {
    hide Trim, Lines, Names;
    var lines := Lines(s);
    names := [];
    NamesDone(lines);
    for i := 0 to |lines|
      invariant names + Names(lines[i..]) == Parse(s)
    {
      NamesNext(lines, i, names);
      var line := Trim(lines[i]);
      if line == "" || line[0] == '#' { continue; }
      names := names + [line];
    }
  }

  // ── what survives the round trip ────────────────────────────────────────────────────

  /** A name a line can carry: one line, nothing to trim, no comment. */
  predicate Proper(name: string) {
    name != "" && name[0] != '#' && Trim(name) == name && '\n' !in name
  }

  lemma {:induction false} TrimLeftShape(s: string)
    ensures TrimLeft(s) == "" || !IsSpace(TrimLeft(s)[0])
    ensures forall c :: c in TrimLeft(s) ==> c in s
  {
    if s != "" && IsSpace(s[0]) { TrimLeftShape(s[1..]); }
  }

  lemma {:induction false} TrimRightShape(s: string)
    ensures var r := TrimRight(s);
      && (r == "" || !IsSpace(r[|r| - 1])) && r <= s
    decreases |s|
  {
    if s != "" && IsSpace(s[|s| - 1]) { TrimRightShape(s[..|s| - 1]); }
  }

  lemma TrimmedIsTrim(s: string)
    ensures Trim(Trim(s)) == Trim(s) && forall c :: c in Trim(s) ==> c in s
  {
    var l := TrimLeft(s);
    TrimLeftShape(s);
    TrimRightShape(l);
    var r := TrimRight(l);
    if r != "" { assert r[0] == l[0]; }
    assert forall c :: c in r ==> c in l;
  }

  lemma {:induction false} ParsedAreProper(lines: seq<string>)
    requires forall l :: l in lines ==> '\n' !in l
    ensures forall n :: n in Names(lines) ==> Proper(n)
  {
    if lines != [] {
      ParsedAreProper(lines[1..]);
      TrimmedIsTrim(lines[0]);
      assert lines[0] in lines;
    }
  }

  lemma LineOff(line: string, rest: string)
    requires '\n' !in line
    ensures Lines(line + "\n" + rest) == [line] + Lines(rest)
  {
    var s := line + "\n" + rest;
    var i := LineEnd(s);
    assert s[|line|] == '\n';
    assert forall k :: 0 <= k < |line| ==> s[k] == line[k];
    assert i == |line| && s[..i] == line && s[i + 1..] == rest;
  }

  lemma {:induction false} BlockParses(names: seq<string>)
    requires forall n :: n in names ==> Proper(n)
    ensures Names(Lines(Block(names))) == names
  {
    if names == [] {
      assert Lines("") == [""];
    } else {
      assert names[0] in names && Proper(names[0]);
      LineOff(names[0], Block(names[1..]));
      BlockParses(names[1..]);
    }
  }

  lemma CommentParses(line: string, rest: string)
    requires '\n' !in line && line != "" && line[0] == '#'
    ensures Parse(line + "\n" + rest) == Parse(rest)
  {
    LineOff(line, rest);
    TrimLeftShape(line);
    assert TrimLeft(line) == line;
    TrimRightShape(line);
    CommentStays(line);
  }

  lemma {:induction false} CommentStays(line: string)
    requires line != "" && line[0] == '#'
    ensures TrimRight(line) != "" && TrimRight(line)[0] == '#'
    decreases |line|
  {
    if IsSpace(line[|line| - 1]) { CommentStays(line[..|line| - 1]); }
  }

  /** A manifest reads back as the names it was built from exactly when every one of them can
      stand on a line of its own. */
  lemma RoundTrip(commit: string, hash: string, names: seq<string>)
    requires '\n' !in commit && '\n' !in hash
    ensures Parse(Render(commit, hash, names)) == names <==> forall n :: n in names ==> Proper(n)
  {
    hide Lines, Names, Proper, Trim, Block;
    ParsedAreProper(Lines(Render(commit, hash, names)));
    HeaderParses(commit, hash, Block(names));
    if forall n :: n in names ==> Proper(n) { BlockParses(names); }
  }

  lemma HeaderParses(commit: string, hash: string, rest: string)
    requires '\n' !in commit && '\n' !in hash
    ensures Parse(Title() + "\n"
                  + ("# commit " + commit + "\n" + ("# hash " + hash + "\n" + rest))) == Parse(rest)
  {
    hide Parse;
    var h := "# hash " + hash + "\n" + rest;
    CommentParses("# hash " + hash, rest);
    CommentParses("# commit " + commit, h);
    CommentParses(Title(), "# commit " + commit + "\n" + h);
  }
}
