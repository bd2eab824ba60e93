/** Recognising an executable from the first bytes of its file
    (python/detect_exe.py). The file is its contents as bytes; reading
    `n` bytes returns at most `n`, fewer at the end of the file. */
module DetectExe {

  const ExeflagNone: bv16 := 0x0000
  const ExeflagLinux: bv16 := 0x0001
  const ExeflagWindows: bv16 := 0x0002
  const ExeflagMacos: bv16 := 0x0004
  const ExeflagMacosFat: bv16 := 0x0008
  const Exeflag32bits: bv16 := 0x0010
  const Exeflag64bits: bv16 := 0x0020

  /** A magic number and the flags a file starting with it gets. */
  datatype Signature = Signature(magic: seq<bv8>, flags: bv16)

  /** The signatures, shortest first. */
  const Signatures: seq<Signature> := [
    Signature([0x4D, 0x5A], ExeflagWindows),
    Signature([0xCE, 0xFA, 0xED, 0xFE], ExeflagMacos | Exeflag32bits),
    Signature([0xCF, 0xFA, 0xED, 0xFE], ExeflagMacos | Exeflag64bits),
    Signature([0xBE, 0xBA, 0xFE, 0xCA], ExeflagMacos | Exeflag32bits | ExeflagMacosFat),
    Signature([0xBF, 0xBA, 0xFE, 0xCA], ExeflagMacos | Exeflag64bits | ExeflagMacosFat),
    Signature([0x7F, 0x45, 0x4C, 0x46, 0x01], ExeflagLinux | Exeflag32bits),
    Signature([0x7F, 0x45, 0x4C, 0x46, 0x02], ExeflagLinux | Exeflag64bits)
  ]

  /** The file starts with `magic`. */
  predicate StartsWith(data: seq<bv8>, magic: seq<bv8>) {
    |magic| <= |data| && data[..|magic|] == magic
  }

  /** The flags of the first signature, in table order, the file starts
      with; none if it starts with no signature. */
  function FirstMatch(sigs: seq<Signature>, data: seq<bv8>): (r: bv16)
    ensures r == ExeflagNone || exists i :: 0 <= i < |sigs| && StartsWith(data, sigs[i].magic) && r == sigs[i].flags
  {
    if sigs == [] then ExeflagNone
    else if StartsWith(data, sigs[0].magic) then sigs[0].flags
    else FirstMatch(sigs[1..], data)
  }

  lemma {:induction false} FirstMatchAt(sigs: seq<Signature>, data: seq<bv8>, i: int)
    requires 0 <= i <= |sigs|
    requires forall j :: 0 <= j < i ==> !StartsWith(data, sigs[j].magic)
    ensures i < |sigs| && StartsWith(data, sigs[i].magic) ==> FirstMatch(sigs, data) == sigs[i].flags
    ensures i == |sigs| ==> FirstMatch(sigs, data) == ExeflagNone
    decreases i
  {
    if i > 0 {
      assert !StartsWith(data, sigs[0].magic);
      FirstMatchAt(sigs[1..], data, i - 1);
    }
  }

  /** The magic numbers never get shorter along the table. */
  ghost predicate SortedByLength(sigs: seq<Signature>) {
    forall i, j :: 0 <= i < j < |sigs| ==> |sigs[i].magic| <= |sigs[j].magic|
  }

  /** The longest magic number among some signatures (0 for none). */
  function MaxLength(sigs: seq<Signature>): (r: nat)
    ensures forall i :: 0 <= i < |sigs| ==> |sigs[i].magic| <= r
    ensures sigs != [] ==> exists i :: 0 <= i < |sigs| && |sigs[i].magic| == r
    ensures sigs == [] ==> r == 0
  {
    if sigs == [] then 0
    else
      var m := MaxLength(sigs[..|sigs| - 1]);
      var l := |sigs[|sigs| - 1].magic|;
      if m < l then l else m
  }

  function Min(a: int, b: int): int {
    if a < b then a else b
  }

  /** Reading at most `n` bytes of the file from position `pos`: fewer at
      the end of the file. */
  function Read(data: seq<bv8>, pos: nat, n: nat): (r: seq<bv8>)
    requires pos <= |data|
    ensures |r| <= n && pos + |r| <= |data|
    ensures |r| < n ==> pos + |r| == |data|
    ensures forall k {:trigger r[k]} :: 0 <= k < |r| ==> r[k] == data[pos + k]
  {
    data[pos..Min(pos + n, |data|)]
  }

  /** Growing a buffer that holds the first `bufLen` bytes of the file to
      `l` bytes leaves it holding the first `l` bytes. */
  lemma GrowBuffer(data: seq<bv8>, buf: seq<bv8>, bufLen: nat, l: nat)
    requires buf == data[..Min(bufLen, |data|)] && bufLen < l
    ensures buf + Read(data, |buf|, l - bufLen) == data[..Min(l, |data|)]
  {
  }

  /** A buffer holding the first bytes of the file equals a magic number
      only when the file starts with it; when the buffer is as long as the
      magic number, exactly then. */
  lemma BufferSees(data: seq<bv8>, buf: seq<bv8>, bufLen: nat, sig: seq<bv8>)
    requires buf == data[..Min(bufLen, |data|)]
    ensures buf == sig ==> StartsWith(data, sig)
    ensures bufLen == |sig| ==> (buf == sig <==> StartsWith(data, sig))
  {
  }

  /** Adding one signature to a prefix of the table. */
  lemma MaxLengthSnoc(sigs: seq<Signature>, i: int)
    requires 0 <= i < |sigs|
    ensures MaxLength(sigs[..i + 1]) == if MaxLength(sigs[..i]) < |sigs[i].magic| then |sigs[i].magic| else MaxLength(sigs[..i])
  {
    assert sigs[..i + 1][..i] == sigs[..i];
  }

  /** In a table sorted by length no earlier magic number is longer. */
  lemma SortedMax(sigs: seq<Signature>, i: int)
    requires SortedByLength(sigs) && 0 <= i < |sigs|
    ensures MaxLength(sigs[..i]) <= |sigs[i].magic|
  {
    if i > 0 {
      var j :| 0 <= j < i && |sigs[..i][j].magic| == MaxLength(sigs[..i]);
      assert sigs[..i][j] == sigs[j];
    }
  }

  /** What the loop keeps after `i` signatures: the buffer holds the first
      bytes of the file up to the longest magic number seen (fewer at the
      end of the file) and, over a sorted table, none of them matched. */
  ghost predicate Scanned(sigs: seq<Signature>, data: seq<bv8>, i: int, buf: seq<bv8>, bufLen: nat) {
    0 <= i <= |sigs| && bufLen == MaxLength(sigs[..i]) && buf == data[..Min(bufLen, |data|)]
    && (SortedByLength(sigs) ==> forall j :: 0 <= j < i ==> !StartsWith(data, sigs[j].magic))
  }

  /** One iteration: after growing the buffer to the signature's length,
      a match is a signature the file starts with (the first one over a
      sorted table) and no match keeps the loop's invariant. */
  lemma ScanStep(sigs: seq<Signature>, data: seq<bv8>, i: int, buf: seq<bv8>, bufLen: nat, buf2: seq<bv8>, bufLen2: nat)
    requires Scanned(sigs, data, i, buf, bufLen) && i < |sigs| && |buf| <= |data|
    requires bufLen2 == if bufLen < |sigs[i].magic| then |sigs[i].magic| else bufLen
    requires buf2 == if bufLen < |sigs[i].magic| then buf + Read(data, |buf|, |sigs[i].magic| - bufLen) else buf
    ensures buf2 == sigs[i].magic ==> StartsWith(data, sigs[i].magic)
    ensures buf2 == sigs[i].magic && SortedByLength(sigs) ==> FirstMatch(sigs, data) == sigs[i].flags
    ensures buf2 != sigs[i].magic ==> Scanned(sigs, data, i + 1, buf2, bufLen2)
  {
    MaxLengthSnoc(sigs, i);
    if bufLen < |sigs[i].magic| {
      GrowBuffer(data, buf, bufLen, |sigs[i].magic|);
    }
    BufferSees(data, buf2, bufLen2, sigs[i].magic);
    if SortedByLength(sigs) {
      SortedMax(sigs, i);
      if buf2 == sigs[i].magic {
        FirstMatchAt(sigs, data, i);
      }
    }
  }

  /** After the whole table with no match, a sorted table has no signature
      the file starts with. */
  lemma ScanDone(sigs: seq<Signature>, data: seq<bv8>, buf: seq<bv8>, bufLen: nat)
    requires Scanned(sigs, data, |sigs|, buf, bufLen)
    ensures SortedByLength(sigs) ==> FirstMatch(sigs, data) == ExeflagNone
  {
    if SortedByLength(sigs) {
      FirstMatchAt(sigs, data, |sigs|);
    }
  }

  /** `get_exeflags` over any table: the buffer keeps the bytes read so
      far, grown before each comparison to the length of the signature
      when shorter. With the table sorted by length the answer is the
      first matching signature's flags; in any case a non-empty answer is
      the flags of a signature the file starts with. */
  method Detect(sigs: seq<Signature>, data: seq<bv8>) returns (flags: bv16)
    ensures SortedByLength(sigs) ==> flags == FirstMatch(sigs, data)
    ensures flags == ExeflagNone || exists i :: 0 <= i < |sigs| && StartsWith(data, sigs[i].magic) && flags == sigs[i].flags
  {
    var buf: seq<bv8> := [];
    var bufLen: nat := 0;
    for i := 0 to |sigs|
      invariant |buf| <= |data|
      invariant Scanned(sigs, data, i, buf, bufLen)
    {
      ghost var buf0, len0 := buf, bufLen;
      var sig := sigs[i].magic;
      if bufLen < |sig| {
        buf := buf + Read(data, |buf|, |sig| - bufLen);
        bufLen := |sig|;
      }
      ScanStep(sigs, data, i, buf0, len0, buf, bufLen);
      if buf == sig {
        return sigs[i].flags;
      }
    }
    ScanDone(sigs, data, buf, bufLen);
    flags := ExeflagNone;
  }

  /** `get_exeflags` itself. */
  method GetExeflags(data: seq<bv8>) returns (flags: bv16)
    ensures flags == FirstMatch(Signatures, data)
  {
    TableSorted();
    flags := Detect(Signatures, data);
  }

  /** The table is sorted by length, as the loop needs. */
  lemma TableSorted()
    ensures SortedByLength(Signatures)
  {
  }

  /** Over a table whose every signature has flags, the answer is empty
      exactly when the file starts with no signature. */
  lemma {:induction false} NoneIffNoMatchIn(sigs: seq<Signature>, data: seq<bv8>)
    requires forall i :: 0 <= i < |sigs| ==> sigs[i].flags != ExeflagNone
    ensures FirstMatch(sigs, data) == ExeflagNone <==> forall i :: 0 <= i < |sigs| ==> !StartsWith(data, sigs[i].magic)
  {
    if sigs != [] && !StartsWith(data, sigs[0].magic) {
      NoneIffNoMatchIn(sigs[1..], data);
      assert forall i :: 0 < i < |sigs| ==> sigs[i] == sigs[1..][i - 1];
    }
  }

  /** Every signature has flags. */
  lemma TableFlagged()
    ensures forall i :: 0 <= i < |Signatures| ==> Signatures[i].flags != ExeflagNone
  {
  }

  /** Every signature has flags, so a match is never mistaken for no match:
      the answer is empty exactly when the file starts with no signature. */
  lemma NoneIffNoMatch(data: seq<bv8>)
    ensures FirstMatch(Signatures, data) == ExeflagNone <==> forall i :: 0 <= i < |Signatures| ==> !StartsWith(data, Signatures[i].magic)
  {
    TableFlagged();
    NoneIffNoMatchIn(Signatures, data);
  }

  /** A file shorter than every magic number is not an executable. */
  lemma ShortFileFlagsNone(data: seq<bv8>)
    requires |data| < 2
    ensures FirstMatch(Signatures, data) == ExeflagNone
  {
    FirstMatchAt(Signatures, data, |Signatures|);
  }

  /** MZ makes a Windows executable whatever follows. */
  lemma WindowsPrefix(rest: seq<bv8>)
    ensures FirstMatch(Signatures, [0x4D, 0x5A] + rest) == ExeflagWindows
  {
    var data: seq<bv8> := [0x4D, 0x5A] + rest;
    assert data[..2] == [0x4D, 0x5A];
  }

  /** The ELF class byte picks 32 or 64 bits. */
  lemma ElfClasses(rest: seq<bv8>)
    ensures FirstMatch(Signatures, [0x7F, 0x45, 0x4C, 0x46, 0x01] + rest) == ExeflagLinux | Exeflag32bits
    ensures FirstMatch(Signatures, [0x7F, 0x45, 0x4C, 0x46, 0x02] + rest) == ExeflagLinux | Exeflag64bits
  {
    var e32: seq<bv8> := [0x7F, 0x45, 0x4C, 0x46, 0x01] + rest;
    var e64: seq<bv8> := [0x7F, 0x45, 0x4C, 0x46, 0x02] + rest;
    assert e32[..5] == [0x7F, 0x45, 0x4C, 0x46, 0x01];
    assert e64[..5] == [0x7F, 0x45, 0x4C, 0x46, 0x02];
    forall j | 0 <= j < 5 ensures !StartsWith(e32, Signatures[j].magic) && !StartsWith(e64, Signatures[j].magic) {
      assert e32[0] == 0x7F && e64[0] == 0x7F;
      assert Signatures[j].magic[0] != 0x7F;
    }
    FirstMatchAt(Signatures, e32, 5);
    forall j | 0 <= j < 6 ensures !StartsWith(e64, Signatures[j].magic) {
      if j == 5 {
        assert e64[4] != Signatures[5].magic[4];
      }
    }
    FirstMatchAt(Signatures, e64, 6);
  }
}
