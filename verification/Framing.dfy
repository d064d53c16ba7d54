/** The byte stream a delivery hashes: one framed record per file in name order, then owner and
    group. It reads back, so equal streams mean equal desired state. */
module Framing {
  import opened Sorting
  import opened Wrappers

  const NUL := 0 as char

  // ── decimal numbers ─────────────────────────────────────────────────────────────────

  function Digit(d: nat): char
    requires d < 10
  {
    '0' + d as char
  }

  predicate IsDigit(c: char) { '0' <= c <= '9' }

  function Dec(n: nat): string {
    if n < 10 then [Digit(n)] else Dec(n / 10) + [Digit(n % 10)]
  }

  function Int(n: int): string { if n < 0 then "-" + Dec(-n) else Dec(n) }

  /** Reads digits back; no answer for anything else. */
  function Num(s: string): Option<nat> {
    if s == "" || !IsDigit(s[|s| - 1]) then None
    else
      var d := (s[|s| - 1] - '0') as nat;
      if |s| == 1 then Some(d)
      else match Num(s[..|s| - 1]) case None => None case Some(m) => Some(10 * m + d)
  }

  function WithSign(negative: bool, m: int): int { if negative then -m else m }

  function Signed(s: string): Option<int> {
    var negative := s != "" && s[0] == '-';
    match Num(if negative then s[1..] else s)
    case None => None
    case Some(m) => Some(WithSign(negative, m))
  }

  lemma {:induction false} NumDec(n: nat)
    ensures Num(Dec(n)) == Some(n) && Dec(n) != "" && forall i :: 0 <= i < |Dec(n)| ==> IsDigit(Dec(n)[i])
  {
    if n >= 10 {
      NumDec(n / 10);
      assert Dec(n)[..|Dec(n)| - 1] == Dec(n / 10);
    }
  }

  lemma SignedInt(n: int)
    ensures Signed(Int(n)) == Some(n)
    ensures forall i :: 0 <= i < |Int(n)| ==> IsDigit(Int(n)[i]) || Int(n)[i] == '-'
  {
    NumDec(if n < 0 then -n else n);
    if n < 0 { assert Int(n)[1..] == Dec(-n); }
  }

  // ── the stream ──────────────────────────────────────────────────────────────────────

  function Record(name: string, content: string): string {
    name + [NUL] + Dec(|content|) + [NUL] + content
  }

  function Records(names: seq<string>, files: map<string, string>): string
    requires forall n :: n in names ==> n in files
  {
    if names == [] then "" else Record(names[0], files[names[0]]) + Records(names[1..], files)
  }

  function Trailer(uid: int, gid: int): string { "uid=" + Int(uid) + " gid=" + Int(gid) }

  function Stream(files: map<string, string>, uid: int, gid: int): string {
    Records(Listed(files.Keys), files) + Trailer(uid, gid)
  }

  lemma RecordsNext(names: seq<string>, files: map<string, string>, i: nat, h: string)
    requires i < |names| && forall n :: n in names ==> n in files
    ensures h + Records(names[i..], files)
            == h + names[i] + [NUL] + Dec(|files[names[i]]|) + [NUL] + files[names[i]] + Records(names[i + 1..], files)
  {
    assert names[i..][0] == names[i] && names[i..][1..] == names[i + 1..];
    hide Dec;
  }

  lemma RecordsDone(names: seq<string>, files: map<string, string>)
    requires forall n :: n in names ==> n in files
    ensures Records(names[|names|..], files) == "" && names[0..] == names
  {
  }

  /** Feeding the hash: names collected and sorted, then record by record. */
  method Feed(files: map<string, string>, uid: int, gid: int) returns (h: string)
    ensures h == Stream(files, uid, gid)
  {
    hide Dec, Int, Listed, Records;
    var names := SortedKeys(files);
    h := "";
    for i := 0 to |names|
      invariant h + Records(names[i..], files) == Records(names, files)
    {
      assert names[i] in names;
      RecordsNext(names, files, i, h);
      h := h + names[i] + [NUL] + Dec(|files[names[i]]|) + [NUL];
      h := h + files[names[i]];
    }
    RecordsDone(names, files);
    h := h + "uid=" + Int(uid) + " gid=" + Int(gid);
  }

  // ── reading it back ─────────────────────────────────────────────────────────────────

  /** The index of the first occurrence, or |s|. */
  function Index(s: string, c: char): (i: nat)
    ensures i <= |s| && (forall k :: 0 <= k < i ==> s[k] != c) && (i < |s| ==> s[i] == c)
  {
    if s == "" || s[0] == c then 0 else 1 + Index(s[1..], c)
  }

  datatype Desired = Desired(files: map<string, string>, uid: int, gid: int)

  function ReadTrailer(s: string): Option<(int, int)> {
    var sp := Index(s, ' ');
    if |s| < 4 || sp < 4 || |s| < sp + 5 || s[..4] != "uid=" || s[sp..sp + 5] != " gid=" then None
    else match (Signed(s[4..sp]), Signed(s[sp + 5..]))
      case (Some(u), Some(g)) => Some((u, g))
      case _ => None
  }

  /** A stretch without NUL is the trailer; otherwise a record stands in front. */
  function Decode(s: string): Option<Desired>
    decreases |s|
  {
    var i := Index(s, NUL);
    if i == |s| then
      match ReadTrailer(s) case None => None case Some(p) => Some(Desired(map[], p.0, p.1))
    else
      var rest := s[i + 1..];
      var j := Index(rest, NUL);
      match Num(rest[..j])
      case None => None
      case Some(len) =>
        if |rest| < j + 1 + len then None
        else match Decode(rest[j + 1 + len..])
          case None => None
          case Some(d) => Some(Desired(d.files[s[..i] := rest[j + 1..j + 1 + len]], d.uid, d.gid))
  }

  lemma IndexAt(s: string, c: char, i: nat)
    requires i <= |s| && (forall k :: 0 <= k < i ==> s[k] != c) && (i < |s| ==> s[i] == c)
    ensures Index(s, c) == i
  {
  }

  lemma TrailerReads(uid: int, gid: int)
    ensures ReadTrailer(Trailer(uid, gid)) == Some((uid, gid)) && NUL !in Trailer(uid, gid)
  {
    var s := Trailer(uid, gid);
    SignedInt(uid);
    SignedInt(gid);
    var sp := 4 + |Int(uid)|;
    assert s[..sp] == "uid=" + Int(uid);
    IndexAt(s, ' ', sp);
    assert s[4..sp] == Int(uid) && s[sp..sp + 5] == " gid=" && s[sp + 5..] == Int(gid);
  }

  /** One step of the decoder, its three parts given. */
  lemma DecodeStep(s: string, name: string, dec: string, content: string, tail: string)
    requires NUL !in name && NUL !in dec && Num(dec) == Some(|content|)
    requires s == name + ([NUL] + (dec + ([NUL] + (content + tail))))
    ensures Decode(s) == match Decode(tail)
                         case None => None
                         case Some(d) => Some(Desired(d.files[name := content], d.uid, d.gid))
  {
    hide Num, ReadTrailer, Index;
    var rest := dec + ([NUL] + (content + tail));
    IndexAt(s, NUL, |name|);
    IndexAt(rest, NUL, |dec|);
    assert s[..|name|] == name && s[|name| + 1..] == rest && rest[..|dec|] == dec;
    Split(rest, dec, content, tail);
  }

  lemma Split(rest: string, dec: string, content: string, tail: string)
    requires rest == dec + ([NUL] + (content + tail))
    ensures |rest| >= |dec| + 1 + |content|
    ensures rest[|dec| + 1..|dec| + 1 + |content|] == content && rest[|dec| + 1 + |content|..] == tail
  {
    assert rest[|dec| + 1..] == content + tail;
  }

  lemma RecordReads(name: string, content: string, tail: string)
    requires NUL !in name
    ensures Decode(Record(name, content) + tail) ==
            match Decode(tail) case None => None case Some(d) => Some(Desired(d.files[name := content], d.uid, d.gid))
  {
    NumDec(|content|);
    var dec := Dec(|content|);
    hide Dec, Num, Decode;
    assert Record(name, content) + tail == name + ([NUL] + (dec + ([NUL] + (content + tail))));
    DecodeStep(Record(name, content) + tail, name, dec, content, tail);
  }

  function Only(names: seq<string>, files: map<string, string>): map<string, string>
    requires forall n :: n in names ==> n in files
  {
    map n | n in names :: files[n]
  }

  lemma TrailerDecodes(uid: int, gid: int)
    ensures Decode(Trailer(uid, gid)) == Some(Desired(map[], uid, gid))
  {
    TrailerReads(uid, gid);
    IndexAt(Trailer(uid, gid), NUL, |Trailer(uid, gid)|);
  }

  lemma {:induction false} RecordsRead(names: seq<string>, files: map<string, string>, uid: int, gid: int)
    requires forall n :: n in names ==> n in files && NUL !in n
    ensures Decode(Records(names, files) + Trailer(uid, gid)) == Some(Desired(Only(names, files), uid, gid))
  {
    hide Decode, Record, Trailer;
    if names == [] {
      TrailerDecodes(uid, gid);
      assert Records(names, files) + Trailer(uid, gid) == Trailer(uid, gid);
    } else {
      var n := names[0];
      RecordsRead(names[1..], files, uid, gid);
      RecordReads(n, files[n], Records(names[1..], files) + Trailer(uid, gid));
      assert Records(names, files) + Trailer(uid, gid)
             == Record(n, files[n]) + (Records(names[1..], files) + Trailer(uid, gid));
      assert Only(names[1..], files)[n := files[n]] == Only(names, files);
    }
  }

  /** The round trip: whatever the contents, the stream of files with proper names reads back. */
  lemma StreamReads(files: map<string, string>, uid: int, gid: int)
    requires forall n :: n in files ==> NUL !in n
    ensures Decode(Stream(files, uid, gid)) == Some(Desired(files, uid, gid))
  {
    RecordsRead(Listed(files.Keys), files, uid, gid);
    assert Only(Listed(files.Keys), files) == files;
  }

  /** Equal streams are equal desired states: the framing leaves nothing for two file sets, or
      two owners, to share. */
  lemma StreamInjective(a: Desired, b: Desired)
    requires forall n :: n in a.files || n in b.files ==> NUL !in n
    ensures Stream(a.files, a.uid, a.gid) == Stream(b.files, b.uid, b.gid) <==> a == b
  {
    StreamReads(a.files, a.uid, a.gid);
    StreamReads(b.files, b.uid, b.gid);
  }
}
