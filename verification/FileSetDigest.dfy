/** The byte string a distribution's file-set digest is taken of, and a decoder for it.

    Bytes are written as the characters with their code: a path is its UTF-8 encoding. */
module FileSetDigest {

  import opened Options
  import D = Decimal

  datatype File = File(path: string, size: nat, sha256: string)

  const NUL := '\0'

  predicate IsHex(c: char) { '0' <= c <= '9' || 'a' <= c <= 'f' }

  predicate IsHash(s: string) { |s| == 64 && forall i :: 0 <= i < |s| ==> IsHex(s[i]) }

  /** What a manifest is checked for, of one file: a size and a hash. */
  predicate Checked(f: File) { IsHash(f.sha256) }

  /** And a path without NUL. */
  predicate Valid(f: File) { Checked(f) && NUL !in f.path }

  predicate AllValid(files: seq<File>) { forall i :: 0 <= i < |files| ==> Valid(files[i]) }

  function Entry(f: File): string { f.path + [NUL] + D.Print(f.size) + [NUL] + f.sha256 + ['\n'] }

  function Preimage(files: seq<File>): string
  {
    if files == [] then [] else Entry(files[0]) + Preimage(files[1..])
  }

  /** The hash is fed piece by piece; `sum` stands for SHA-256 in hexadecimal. */
  method ComputeDistributionFileSetDigest(files: seq<File>, sum: string -> string) returns (digest: string)
    ensures digest == "sha256:" + sum(Preimage(files))
  {
    var fed, i := "", 0;
    while i < |files|
      invariant 0 <= i <= |files| && fed == Preimage(files[..i])
    {
      var file := files[i];
      ghost var before := fed;
      fed := fed + file.path;
      fed := fed + [NUL];
      fed := fed + D.Print(file.size);
      fed := fed + [NUL];
      fed := fed + file.sha256;
      fed := fed + ['\n'];
      assert fed == before + Entry(file);
      PreimageSnoc(files[..i], file);
      assert files[..i + 1] == files[..i] + [file];
      i := i + 1;
    }
    assert files[..i] == files;
    digest := "sha256:" + sum(fed);
  }

  // ---------------------------------------------------------------------------------------
  // The decoder
  // ---------------------------------------------------------------------------------------

  /** Where the first NUL is, or the length. */
  function FirstNul(s: string): (n: nat)
    ensures n <= |s| && NUL !in s[..n] && (n < |s| ==> s[n] == NUL)
  {
    if s == [] || s[0] == NUL then 0 else 1 + FirstNul(s[1..])
  }

  /** One entry off the front: path to the first NUL, size to the next, 64 hexadecimal digits, a newline. */
  function DecodeEntry(s: string): (r: Option<(File, string)>)
    ensures r.Some? ==> s == Entry(r.value.0) + r.value.1 && Valid(r.value.0)
  {
    var n := FirstNul(s);
    if n == |s| then None
    else
      var rest := s[n + 1..];
      var m := FirstNul(rest);
      if m == |rest| || !D.Canonical(rest[..m]) then None
      else
        var tail := rest[m + 1..];
        if |tail| < 65 || !IsHash(tail[..64]) || tail[64] != '\n' then None
        else
          D.ReadPrintsBack(rest[..m]);
          Reassembles(s, n, m);
          Some((File(s[..n], D.Value(rest[..m]), tail[..64]), tail[65..]))
  }

  lemma Reassembles(s: string, n: nat, m: nat)
    requires n < |s| && m + n + 1 < |s| && |s| >= n + m + 67
    requires s[n] == NUL && s[n + 1..][m] == NUL && s[n + 1..][m + 1..][64] == '\n'
    ensures s == s[..n] + [NUL] + s[n + 1..][..m] + [NUL] + s[n + 1..][m + 1..][..64] + ['\n'] + s[n + 1..][m + 1..][65..]
  {
  }

  function Decode(s: string): (r: Option<seq<File>>)
    ensures r.Some? ==> Preimage(r.value) == s && AllValid(r.value)
  {
    if s == [] then Some([])
    else
      var first := DecodeEntry(s);
      if first.None? then None
      else
        var rest := Decode(first.value.1);
        if rest.None? then None else Some([first.value.0] + rest.value)
  }

  lemma {:induction false} FirstNulIs(a: string, rest: string)
    requires NUL !in a
    ensures FirstNul(a + [NUL] + rest) == |a|
  {
    if a != [] {
      FirstNulIs(a[1..], rest);
      assert (a + [NUL] + rest)[1..] == a[1..] + [NUL] + rest;
      assert a[0] in a;
    }
  }

  lemma DigitsHaveNoNul(s: string)
    requires D.Digits(s)
    ensures NUL !in s
  {
  }

  lemma DecodesParts(path: string, digits: string, tail: string)
    requires NUL !in path && D.Canonical(digits)
    requires |tail| >= 65 && IsHash(tail[..64]) && tail[64] == '\n'
    ensures DecodeEntry(path + [NUL] + (digits + [NUL] + tail))
         == Some((File(path, D.Value(digits), tail[..64]), tail[65..]))
  {
    var middle := digits + [NUL] + tail;
    DigitsHaveNoNul(digits);
    FirstNulIs(path, middle);
    FirstNulIs(digits, tail);
    var s := path + [NUL] + middle;
    assert s[..|path|] == path && s[|path| + 1..] == middle;
    assert middle[..|digits|] == digits && middle[|digits| + 1..] == tail;
  }

  lemma DecodesEntry(f: File, rest: string)
    requires Valid(f)
    ensures DecodeEntry(Entry(f) + rest) == Some((f, rest))
  {
    var tail := f.sha256 + ['\n'] + rest;
    assert tail[..64] == f.sha256 && tail[65..] == rest;
    D.PrintReadsBack(f.size);
    DecodesParts(f.path, D.Print(f.size), tail);
    assert Entry(f) + rest == f.path + [NUL] + (D.Print(f.size) + [NUL] + tail);
  }

  lemma DecodeStep(f: File, rest: seq<File>)
    requires Valid(f) && Decode(Preimage(rest)) == Some(rest)
    ensures Decode(Entry(f) + Preimage(rest)) == Some([f] + rest)
  {
    DecodesEntry(f, Preimage(rest));
    assert Entry(f) + Preimage(rest) != [];
  }

  /** Encoding and decoding: whatever valid list was fed is what the decoder finds. */
  lemma {:induction false} DecodesPreimage(files: seq<File>)
    requires AllValid(files)
    ensures Decode(Preimage(files)) == Some(files)
  {
    if files != [] {
      var f, rest := files[0], files[1..];
      DecodesPreimage(rest);
      DecodeStep(f, rest);
      assert [f] + rest == files;
    }
  }

  /** Equal byte strings come of equal lists, and the decoder accepts exactly the byte strings of valid lists. */
  lemma UniquelyDecodable(a: seq<File>, b: seq<File>)
    requires AllValid(a) && AllValid(b) && Preimage(a) == Preimage(b)
    ensures a == b
  {
    DecodesPreimage(a);
    DecodesPreimage(b);
  }

  ghost predicate IsPreimage(s: string) { exists files: seq<File> :: AllValid(files) && Preimage(files) == s }

  lemma DecodesExactlyPreimages(s: string)
    ensures Decode(s).Some? <==> IsPreimage(s)
  {
    if IsPreimage(s) {
      var files: seq<File> :| AllValid(files) && Preimage(files) == s;
      DecodesPreimage(files);
    }
  }

  // ---------------------------------------------------------------------------------------
  // Paths with NUL
  // ---------------------------------------------------------------------------------------

  const MANIFEST_PATH := "dist/distribution-manifest.json"
  const MAX_SAFE := 0x1f_ffff_ffff_ffff

  /** All that a manifest's files are checked for; `precedes` is the order of `localeCompare`. */
  ghost predicate Accepted(files: seq<File>, precedes: (string, string) -> bool)
  {
    && (forall i :: 0 <= i < |files| ==>
          Checked(files[i]) && files[i].size <= MAX_SAFE && files[i].path != MANIFEST_PATH)
    && (forall i, j :: 0 <= i && j == i + 1 < |files| && files[i].path != [] ==> precedes(files[i].path, files[j].path))
    && (forall i, j :: 0 <= i < j < |files| ==> files[i].path != files[j].path)
  }

  /** All files read as one, whose path holds everything up to the last path. */
  function Flattened(files: seq<File>): File
    requires files != []
  {
    var last := files[|files| - 1];
    File(Preimage(files[..|files| - 1]) + last.path, last.size, last.sha256)
  }

  lemma FlattenedReadsAlike(files: seq<File>)
    requires files != []
    ensures Preimage([Flattened(files)]) == Preimage(files)
  {
    var front, last, flat := files[..|files| - 1], files[|files| - 1], Flattened(files);
    PreimageSnoc(front, last);
    assert front + [last] == files;
    PreimageSnoc([], flat);
    assert [] + [flat] == [flat];
    var tail := [NUL] + D.Print(last.size) + [NUL] + last.sha256 + ['\n'];
    assert Entry(last) == last.path + tail && Entry(flat) == Preimage(front) + last.path + tail;
    Associates(Preimage(front), last.path, tail);
  }

  lemma HasNul(files: seq<File>)
    requires files != []
    ensures NUL in Preimage(files)
  {
    var f := files[0];
    assert (Entry(f) + Preimage(files[1..]))[|f.path|] == NUL;
  }

  lemma ManifestPathHasNoNul()
    ensures NUL !in MANIFEST_PATH
  {
  }

  /** The manifest's own checks do not refuse NUL in a path, and then the byte string no longer tells: every
      accepted list of two files or more has a twin of one file, accepted by the same checks. */
  lemma NulPathsCollide(files: seq<File>, precedes: (string, string) -> bool)
    requires Accepted(files, precedes) && |files| >= 2
    ensures Accepted([Flattened(files)], precedes)
    ensures Preimage([Flattened(files)]) == Preimage(files) && [Flattened(files)] != files
  {
    FlattenedReadsAlike(files);
    FlattenedAccepted(files, precedes);
  }

  lemma FlattenedAccepted(files: seq<File>, precedes: (string, string) -> bool)
    requires Accepted(files, precedes) && |files| >= 2
    ensures Accepted([Flattened(files)], precedes)
  {
    var flat := Flattened(files);
    FlattenedHasNul(files);
    NotTheManifest(flat.path);
    LastIsChecked(files, precedes);
    OneAccepted(flat, precedes);
  }

  lemma LastIsChecked(files: seq<File>, precedes: (string, string) -> bool)
    requires Accepted(files, precedes) && |files| >= 1
    ensures Checked(files[|files| - 1]) && files[|files| - 1].size <= MAX_SAFE
  {
  }

  lemma OneAccepted(f: File, precedes: (string, string) -> bool)
    requires Checked(f) && f.size <= MAX_SAFE && f.path != MANIFEST_PATH
    ensures Accepted([f], precedes)
  {
  }

  lemma FlattenedHasNul(files: seq<File>)
    requires |files| >= 2
    ensures NUL in Flattened(files).path
  {
    HasNul(files[..|files| - 1]);
  }

  lemma NotTheManifest(path: string)
    requires NUL in path
    ensures path != MANIFEST_PATH
  {
    ManifestPathHasNoNul();
  }

  function Nuls(s: string): nat { if s == [] then 0 else (if s[0] == NUL then 1 else 0) + Nuls(s[1..]) }

  lemma {:induction false} NulsJoin(a: string, b: string)
    ensures Nuls(a + b) == Nuls(a) + Nuls(b)
  {
    if a == [] {
      assert a + b == b;
    } else {
      NulsJoin(a[1..], b);
      assert (a + b)[1..] == a[1..] + b;
    }
  }

  lemma {:induction false} NoNuls(s: string)
    ensures Nuls(s) == 0 <==> NUL !in s
  {
    if s != [] {
      NoNuls(s[1..]);
      assert s == [s[0]] + s[1..];
    }
  }

  /** Two separators, and what the path has of its own. */
  lemma EntryNuls(f: File)
    requires Checked(f)
    ensures Nuls(Entry(f)) == Nuls(f.path) + 2
  {
    var digits := D.Print(f.size);
    D.PrintReadsBack(f.size);
    DigitsHaveNoNul(digits);
    NoNuls(digits);
    NoNuls(f.sha256);
    NulsJoin(f.path, [NUL]);
    NulsJoin(f.path + [NUL], digits);
    NulsJoin(f.path + [NUL] + digits, [NUL]);
    NulsJoin(f.path + [NUL] + digits + [NUL], f.sha256);
    NulsJoin(f.path + [NUL] + digits + [NUL] + f.sha256, ['\n']);
  }

  lemma {:induction false} PreimageNuls(files: seq<File>)
    requires forall i :: 0 <= i < |files| ==> Checked(files[i])
    ensures Nuls(Preimage(files)) >= 2 * |files|
  {
    if files != [] {
      NulsJoin(Entry(files[0]), Preimage(files[1..]));
      EntryNuls(files[0]);
      PreimageNuls(files[1..]);
    }
  }

  lemma OneFileDetermined(f: File, other: seq<File>)
    requires Valid(f) && Preimage(other) == Preimage([f])
    requires forall i :: 0 <= i < |other| ==> Checked(other[i])
    ensures other == [f]
  {
    OneHasTwo(f);
    var g := JustOne(other);
    OneByOne(g, f);
  }

  lemma OneByOne(g: File, f: File)
    requires Valid(f) && Checked(g) && Preimage([g]) == Preimage([f])
    ensures g == f
  {
    OneHasTwo(f);
    TwoAreSeparators(g);
    PreimageOfOne(f);
    PreimageOfOne(g);
    DecodesEntry(f, []);
    DecodesEntry(g, []);
    assert Entry(f) + [] == Entry(g) + [];
  }

  lemma OneHasTwo(f: File)
    requires Valid(f)
    ensures Nuls(Preimage([f])) == 2
  {
    NulsOfOne(f);
    NoNuls(f.path);
  }

  lemma JustOne(files: seq<File>) returns (f: File)
    requires Nuls(Preimage(files)) == 2 && forall i :: 0 <= i < |files| ==> Checked(files[i])
    ensures files == [f] && Checked(f)
  {
    PreimageNuls(files);
    assert files != [] by { assert Nuls(Preimage([])) == 0; }
    f := files[0];
  }

  lemma TwoAreSeparators(f: File)
    requires Checked(f) && Nuls(Preimage([f])) == 2
    ensures NUL !in f.path
  {
    NulsOfOne(f);
    NoNuls(f.path);
  }

  lemma NulsOfOne(f: File)
    requires Checked(f)
    ensures Nuls(Preimage([f])) == Nuls(f.path) + 2
  {
    PreimageOfOne(f);
    EntryNuls(f);
  }

  lemma PreimageOfOne(f: File)
    ensures Preimage([f]) == Entry(f)
  {
    PreimageCons(f, []);
    assert [f] + [] == [f] && Entry(f) + [] == Entry(f);
  }

  /** Among all the lists the checks accept, a list without NUL in its paths is determined by its byte string
      exactly when it has at most one file. */
  lemma DeterminedExactly(files: seq<File>, precedes: (string, string) -> bool)
    requires Accepted(files, precedes) && AllValid(files)
    ensures Determined(files, precedes) <==> |files| <= 1
  {
    if |files| <= 1 {
      forall other | Accepted(other, precedes) && Preimage(other) == Preimage(files)
        ensures other == files
      {
        if files != [] { OneFileDetermined(files[0], other); }
        if files == [] && other != [] { HasNul(other); }
      }
    } else {
      NulPathsCollide(files, precedes);
    }
  }

  ghost predicate Determined(files: seq<File>, precedes: (string, string) -> bool)
  {
    forall other: seq<File> :: Accepted(other, precedes) && Preimage(other) == Preimage(files) ==> other == files
  }

  lemma Associates(a: string, b: string, c: string)
    ensures a + b + c == a + (b + c)
  {
  }

  lemma PreimageCons(f: File, rest: seq<File>)
    ensures Preimage([f] + rest) == Entry(f) + Preimage(rest)
  {
    assert ([f] + rest)[1..] == rest;
  }

  lemma {:induction false} PreimageJoins(a: seq<File>, b: seq<File>)
    ensures Preimage(a + b) == Preimage(a) + Preimage(b)
  {
    if a == [] {
      assert a + b == b;
    } else {
      var f, rest := a[0], a[1..];
      PreimageJoins(rest, b);
      PreimageCons(f, rest);
      PreimageCons(f, rest + b);
      assert [f] + rest == a && [f] + (rest + b) == a + b;
      Associates(Entry(f), Preimage(rest), Preimage(b));
    }
  }

  lemma PreimageSnoc(files: seq<File>, f: File)
    ensures Preimage(files + [f]) == Preimage(files) + Entry(f)
  {
    PreimageJoins(files, [f]);
    PreimageCons(f, []);
    assert [f] + [] == [f];
  }
}
