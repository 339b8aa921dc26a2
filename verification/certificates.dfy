/** The pure decisions taken while building the secure channel: where trusted
    CAs come from, which files of a CA directory count, which key-store format
    a client certificate is read as, and how a PEM file is cut into its
    certificate chain and its private key.  Reading files and decoding the
    cryptographic material are left to the caller. */
module Certificates {
  import opened Wrappers
  import opened Errors
  import opened Text
  import opened Http

  /** A Java string reference that is set and not empty. */
  predicate IsSet(s: Option<string>) {
    s.Some? && s.value != []
  }

  // ---------------------------------------------------------------------
  // Trusted CAs
  // ---------------------------------------------------------------------

  /** The CA directory filter: the last `.` of the name sits after its first
      character and starts the extension `.pem`. */
  predicate AcceptsPem(name: string) {
    var dot := LastIndexOfChar(name, '.');
    dot > 0 && name[dot..] == ".pem"
  }

  /** The filter accepts exactly the names longer than `.pem` that end in it. */
  lemma AcceptsPemIsSuffixTest(name: string)
    ensures AcceptsPem(name) <==> |name| > 4 && EndsWith(name, ".pem")
  {
    var dot := LastIndexOfChar(name, '.');
    if AcceptsPem(name) {
      assert |name| - dot == 4;
    }
    if |name| > 4 && EndsWith(name, ".pem") {
      var d := |name| - 4;
      assert name[d] == '.';
      assert '.' !in name[d + 1..] by {
        assert name[d + 1..] == "pem";
      }
      LastIndexOfCharIsLast(name, '.', d);
    }
  }

  /** A position holding `c` with no `c` after it is the last index of `c`. */
  lemma LastIndexOfCharIsLast(s: string, c: char, i: nat)
    requires i < |s| && s[i] == c && c !in s[i + 1..]
    ensures LastIndexOfChar(s, c) == i
  {
  }

  /** The names of a directory listing the filter keeps, in listing order. */
  function PemFiles(names: seq<string>): (r: seq<string>)
    ensures forall n :: n in r <==> n in names && AcceptsPem(n)
    ensures |r| <= |names|
  {
    if names == [] then []
    else if AcceptsPem(names[0]) then [names[0]] + PemFiles(names[1..])
    else PemFiles(names[1..])
  }

  /** `loadCAs`: a set CA file wins over a set CA directory; with neither the
      system default trust applies.  A CA directory must be a directory. */
  function LoadCAs(caFile: Option<string>, caPath: Option<string>,
                   isDirectory: string -> bool, listDirectory: string -> seq<string>): (r: Result<TrustSource>)
    ensures IsSet(caFile) ==> r == Success(FromFile(caFile.value))
    ensures !IsSet(caFile) && !IsSet(caPath) ==> r == Success(SystemDefault)
    ensures r.Failure? <==> !IsSet(caFile) && IsSet(caPath) && !isDirectory(caPath.value)
    ensures r.Failure? ==> r.error == AuthenticationError("'" + caPath.value + "' is not a directory.")
    ensures r.Success? && r.value.FromDirectory? ==>
              !IsSet(caFile) && IsSet(caPath) && r.value.path == caPath.value &&
              forall n :: n in r.value.files <==> n in listDirectory(caPath.value) && AcceptsPem(n)
  {
    if IsSet(caFile) then Success(FromFile(caFile.value))
    else if IsSet(caPath) then
      if !isDirectory(caPath.value) then Failure(AuthenticationError("'" + caPath.value + "' is not a directory."))
      else Success(FromDirectory(caPath.value, PemFiles(listDirectory(caPath.value))))
    else Success(SystemDefault)
  }

  // ---------------------------------------------------------------------
  // Client certificate
  // ---------------------------------------------------------------------

  /** A certificate path ending in `.p12` is read as a PKCS12 key store;
      anything else as a PEM file. */
  predicate IsPkcs12(certificate: string) {
    EndsWith(certificate, ".p12")
  }

  const CERT_BEGIN := "-----BEGIN CERTIFICATE-----"
  const CERT_END := "-----END CERTIFICATE-----"

  /** The certificate blocks of a PEM text from `from` on, in file order: each
      block runs from a BEGIN marker to the first END marker at or after it,
      and the next search starts one character after the BEGIN marker.  A
      BEGIN marker without an END marker after it cannot be read. */
  function CertificateBlocks(text: string, from: nat): (r: Result<seq<string>>)
    ensures r.Success? ==> forall b :: b in r.value ==> StartsWith(b, CERT_BEGIN) && EndsWith(b, CERT_END)
    ensures r.Failure? ==> r.error == AuthenticationError("cannot load user certificate")
    decreases |text| - from
  {
    var start := IndexOf(text, CERT_BEGIN, from);
    if start == -1 then Success([])
    else
      var end := IndexOf(text, CERT_END, start);
      if end == -1 then Failure(AuthenticationError("cannot load user certificate"))
      else
        var block := text[start..end + |CERT_END|];
        BlockMarkers(text, start, end);
        var rest :- CertificateBlocks(text, start + 1);
        Success([block] + rest)
  }

  /** The text from a BEGIN marker to the end of an END marker at or after
      it is a block framed by the two markers. */
  lemma BlockMarkers(text: string, start: nat, end: nat)
    requires OccursAt(text, CERT_BEGIN, start) && OccursAt(text, CERT_END, end) && start <= end
    ensures start + |CERT_BEGIN| <= end + |CERT_END|
    ensures StartsWith(text[start..end + |CERT_END|], CERT_BEGIN) && EndsWith(text[start..end + |CERT_END|], CERT_END)
  {
    UnclosedOrLong(text, start, end);
    var block := text[start..end + |CERT_END|];
    assert block[..|CERT_BEGIN|] == text[start..start + |CERT_BEGIN|];
    assert block[|block| - |CERT_END|..] == text[end..end + |CERT_END|];
  }

  /** An END marker found from a BEGIN marker's position ends after the
      BEGIN marker: the two markers differ in their sixth character. */
  lemma UnclosedOrLong(text: string, start: nat, end: nat)
    requires OccursAt(text, CERT_BEGIN, start) && OccursAt(text, CERT_END, end) && start <= end
    ensures end + |CERT_END| >= start + |CERT_BEGIN|
  {
    assert text[start..start + |CERT_BEGIN|] == CERT_BEGIN;
    assert text[start + 5] == 'B';
    assert text[end..end + |CERT_END|] == CERT_END;
    assert forall k :: 0 <= k <= 5 ==> text[end + k] == CERT_END[k] != 'B';
  }

  /** A BEGIN marker at or after `from` with no END marker at or after it. */
  ghost predicate HasUnclosedBlock(text: string, from: nat) {
    exists i :: from <= i && OccursAt(text, CERT_BEGIN, i) && forall k :: i <= k ==> !OccursAt(text, CERT_END, k)
  }

  /** One step of the scan: it fails at the first BEGIN marker when that
      block is never closed, and otherwise where the rest of the scan fails. */
  lemma CertificateBlocksStep(text: string, from: nat)
    ensures var start := IndexOf(text, CERT_BEGIN, from);
            CertificateBlocks(text, from).Failure? <==>
              start != -1 && (IndexOf(text, CERT_END, start) == -1 || CertificateBlocks(text, start + 1).Failure?)
  {
  }

  /** The block a BEGIN marker at `begin` starts: up to the end of the first
      END marker at or after it, or nothing when there is none. */
  function BlockFrom(text: string, begin: nat): string {
    var end := IndexOf(text, CERT_END, begin);
    if end == -1 then [] else text[begin..end + |CERT_END|]
  }

  /** The blocks that start at each of `begins`, in order. */
  function BlocksFrom(text: string, begins: seq<nat>): (r: seq<string>)
    ensures |r| == |begins|
  {
    if begins == [] then [] else [BlockFrom(text, begins[0])] + BlocksFrom(text, begins[1..])
  }

  lemma {:induction false} BlocksFromAt(text: string, begins: seq<nat>, k: nat)
    requires k < |begins|
    ensures BlocksFrom(text, begins)[k] == BlockFrom(text, begins[k])
  {
    if k > 0 {
      BlocksFromAt(text, begins[1..], k - 1);
    }
  }

  /** A successful scan yields one block per BEGIN marker at or after `from`,
      in order: each BEGIN marker is closed by an END marker at or after it,
      and the `k`-th block runs from the `k`-th BEGIN marker to the end of the
      first such END marker. */
  lemma CertificateBlocksComplete(text: string, from: nat)
    requires CertificateBlocks(text, from).Success?
    ensures var begins := Occurrences(text, CERT_BEGIN, from);
            forall b :: b in begins ==> IndexOf(text, CERT_END, b) != -1
    ensures var blocks := CertificateBlocks(text, from).value;
            var begins := Occurrences(text, CERT_BEGIN, from);
            |blocks| == |begins| && forall k :: 0 <= k < |begins| ==> blocks[k] == BlockFrom(text, begins[k])
  {
    var begins := Occurrences(text, CERT_BEGIN, from);
    CertificateBlocksAreBlocks(text, from, CertificateBlocks(text, from).value);
    CertificateBlocksFailsIffUnclosed(text, from);
    OccurrencesMembers(text, CERT_BEGIN, from);
    forall b | b in begins
      ensures IndexOf(text, CERT_END, b) != -1
    {
      assert from <= b && OccursAt(text, CERT_BEGIN, b);
    }
    forall k | 0 <= k < |begins|
      ensures CertificateBlocks(text, from).value[k] == BlockFrom(text, begins[k])
    {
      BlocksFromAt(text, begins, k);
    }
  }

  /** A successful scan yields the blocks of the BEGIN markers at or after
      `from`. */
  lemma {:induction false} CertificateBlocksAreBlocks(text: string, from: nat, blocks: seq<string>)
    requires CertificateBlocks(text, from) == Success(blocks)
    ensures blocks == BlocksFrom(text, Occurrences(text, CERT_BEGIN, from))
    decreases |text| - from
  {
    var start := IndexOf(text, CERT_BEGIN, from);
    if start == -1 {
      OccurrencesNone(text, CERT_BEGIN, from);
      CertificateBlocksNone(text, from, blocks);
    } else {
      OccurrencesFirst(text, CERT_BEGIN, from, start);
      CertificateBlocksHead(text, from, start, blocks);
      CertificateBlocksTail(text, from, start, blocks);
      var later := Occurrences(text, CERT_BEGIN, start + 1);
      CertificateBlocksAreBlocks(text, start + 1, blocks[1..]);
      ConsSplit(blocks, BlockFrom(text, start), BlocksFrom(text, later));
      BlocksFromCons(text, start, later);
    }
  }

  lemma ConsSplit<T>(xs: seq<T>, x: T, tail: seq<T>)
    requires xs != [] && xs[0] == x && xs[1..] == tail
    ensures xs == [x] + tail
  {
  }

  lemma BlocksFromCons(text: string, begin: nat, begins: seq<nat>)
    ensures BlocksFrom(text, [begin] + begins) == [BlockFrom(text, begin)] + BlocksFrom(text, begins)
  {
    assert ([begin] + begins)[1..] == begins;
  }

  /** A scan that finds no BEGIN marker yields no block. */
  lemma CertificateBlocksNone(text: string, from: nat, blocks: seq<string>)
    requires CertificateBlocks(text, from) == Success(blocks) && IndexOf(text, CERT_BEGIN, from) == -1
    ensures blocks == []
  {
  }

  /** One step of a successful scan that finds a BEGIN marker at `start`:
      the block there comes first ... */
  lemma CertificateBlocksHead(text: string, from: nat, start: nat, blocks: seq<string>)
    requires CertificateBlocks(text, from) == Success(blocks) && start as int == IndexOf(text, CERT_BEGIN, from)
    ensures blocks != [] && blocks[0] == BlockFrom(text, start)
  {
    var end := IndexOf(text, CERT_END, start);
    assert BlockFrom(text, start) == text[start..end + |CERT_END|];
  }

  /** ... followed by the blocks found from the character after it. */
  lemma CertificateBlocksTail(text: string, from: nat, start: nat, blocks: seq<string>)
    requires CertificateBlocks(text, from) == Success(blocks) && start as int == IndexOf(text, CERT_BEGIN, from)
    ensures blocks != [] && CertificateBlocks(text, start + 1) == Success(blocks[1..])
  {
    var end := IndexOf(text, CERT_END, start);
    var rest := CertificateBlocks(text, start + 1);
    assert blocks == [text[start..end + |CERT_END|]] + rest.value;
  }

  /** The scan fails exactly when some certificate block is never closed. */
  lemma {:induction false} CertificateBlocksFailsIffUnclosed(text: string, from: nat)
    ensures CertificateBlocks(text, from).Failure? <==> HasUnclosedBlock(text, from)
    decreases |text| - from
  {
    CertificateBlocksStep(text, from);
    var start := IndexOf(text, CERT_BEGIN, from);
    if start == -1 {
      assert !HasUnclosedBlock(text, from);
    } else if IndexOf(text, CERT_END, start) == -1 {
      assert from <= start && OccursAt(text, CERT_BEGIN, start);
    } else {
      CertificateBlocksFailsIffUnclosed(text, start + 1);
      UnclosedAfterClosed(text, from, start);
    }
  }

  /** Past a closed block, an unclosed one can only come after its BEGIN
      marker. */
  lemma UnclosedAfterClosed(text: string, from: nat, start: nat)
    requires start == IndexOf(text, CERT_BEGIN, from) && IndexOf(text, CERT_END, start) != -1
    ensures HasUnclosedBlock(text, from) <==> HasUnclosedBlock(text, start + 1)
  {
    if HasUnclosedBlock(text, from) {
      var i :| from <= i && OccursAt(text, CERT_BEGIN, i) && forall k :: i <= k ==> !OccursAt(text, CERT_END, k);
      assert start <= i;
      assert i != start;
    }
  }

  /** The block scan as the source writes it: a missing END marker makes the
      end index `-1 + 25`, so the block is `text[start..24]`, which Java's
      `substring` rejects once `start` is past 24.  The text such a fragment
      hands to the PEM reader is kept; what that reader makes of it is not
      part of this model. */
  function CertificateBlocksAsWritten(text: string, from: nat): (r: Result<seq<string>>)
    ensures r.Failure? ==> r.error.IndexOutOfBounds?
    decreases |text| - from
  {
    var start := IndexOf(text, CERT_BEGIN, from);
    if start == -1 then Success([])
    else
      var stop := IndexOf(text, CERT_END, start) + |CERT_END|;
      if stop < start then Failure(IndexOutOfBounds(start, stop))
      else
        var rest :- CertificateBlocksAsWritten(text, start + 1);
        Success([text[start..stop]] + rest)
  }

  /** Where every block is closed, the scan as written and the corrected one
      agree. */
  lemma {:induction false} AsWrittenAgreesWhenClosed(text: string, from: nat)
    requires CertificateBlocks(text, from).Success?
    ensures CertificateBlocksAsWritten(text, from) == CertificateBlocks(text, from)
    decreases |text| - from
  {
    var start := IndexOf(text, CERT_BEGIN, from);
    if start != -1 {
      var end := IndexOf(text, CERT_END, start);
      assert end != -1;
      UnclosedOrLong(text, start, end);
      AsWrittenAgreesWhenClosed(text, start + 1);
    }
  }

  /** Twenty-six characters of preamble before an unclosed BEGIN marker: the
      scan as written fails with an index error instead of an authentication
      error. */
  lemma UnclosedAfterPreambleFails()
    ensures var text := seq(26, _ => 'x') + CERT_BEGIN;
            CertificateBlocksAsWritten(text, 0) == Failure(IndexOutOfBounds(26, 24)) &&
            CertificateBlocks(text, 0) == Failure(AuthenticationError("cannot load user certificate"))
  {
    var text := seq(26, _ => 'x') + CERT_BEGIN;
    assert OccursAt(text, CERT_BEGIN, 26) by {
      assert text[26..26 + |CERT_BEGIN|] == CERT_BEGIN;
    }
    forall i | 0 <= i < 26
      ensures !OccursAt(text, CERT_BEGIN, i)
    {
      assert text[i] == 'x';
      if i + |CERT_BEGIN| <= |text| {
        assert text[i..i + |CERT_BEGIN|][0] == 'x';
      }
    }
    assert IndexOf(text, CERT_BEGIN, 0) == 26;
    forall i | 26 <= i
      ensures !OccursAt(text, CERT_END, i)
    {
      if i + |CERT_END| <= |text| {
        assert i <= 28;
        var k := 31 - i;
        assert text[31] == CERT_BEGIN[5] == 'B';
        assert text[i..i + |CERT_END|][k] == text[31];
        assert CERT_END[k] != 'B';
      }
    }
    assert IndexOf(text, CERT_END, 26) == -1;
  }

  // ---------------------------------------------------------------------
  // Private key markers
  // ---------------------------------------------------------------------

  const KEY_TAIL := "PRIVATE KEY-----"

  /** The key-type prefixes the marker pattern allows before its tail. */
  predicate IsKeyType(t: string) {
    (|t| == 4 && (t[0] == 'R' || t[0] == 'D') && t[1] == 'S' && t[2] == 'A' && t[3] == ' ') ||
    (|t| == 3 && ((t[0] == 'E' && t[1] == 'C') || (t[0] == 'D' && t[1] == 'H')) && t[2] == ' ')
  }

  /** Spelled out, the prefixes are `RSA `, `DSA `, `EC ` and `DH `. */
  lemma KeyTypesSpelledOut(t: string)
    ensures IsKeyType(t) <==> t == "RSA " || t == "DSA " || t == "EC " || t == "DH "
  {
  }

  /** `w` is a sequence of key-type prefixes: the language of
      `(RSA |DSA |EC |DH )*`. */
  predicate IsKeyTypes(w: string)
    decreases |w|
  {
    w == [] ||
    (4 <= |w| && IsKeyType(w[..4]) && IsKeyTypes(w[4..])) ||
    (3 <= |w| && IsKeyType(w[..3]) && IsKeyTypes(w[3..]))
  }

  /** The length of the key-type prefix starting at `j`, or 0.  No prefix is
      a prefix of another, so at most one applies. */
  function KeyTypeAt(text: string, j: nat): (r: nat)
    ensures r == 0 || r == 3 || r == 4
    ensures r != 0 ==> j + r <= |text| && IsKeyType(text[j..j + r])
    ensures r != 3 ==> !(j + 3 <= |text| && IsKeyType(text[j..j + 3]))
    ensures r != 4 ==> !(j + 4 <= |text| && IsKeyType(text[j..j + 4]))
  {
    if j + 4 <= |text| && IsKeyType(text[j..j + 4]) then
      assert j + 3 <= |text| ==> text[j..j + 3][2] == text[j..j + 4][2];
      4
    else if j + 3 <= |text| && IsKeyType(text[j..j + 3]) then
      assert j + 4 <= |text| ==> text[j..j + 3][2] == text[j..j + 4][2];
      3
    else 0
  }

  /** Matches `(RSA |DSA |EC |DH )*PRIVATE KEY-----` at `j`, returning where
      the match ends.  The prefixes and the tail start with different letters,
      so at most one alternative applies at each step. */
  function KeyTypesThenTail(text: string, j: nat): (r: Option<nat>)
    ensures r.Some? ==> j + |KEY_TAIL| <= r.value <= |text| && OccursAt(text, KEY_TAIL, r.value - |KEY_TAIL|)
    decreases |text| - j
  {
    if OccursAt(text, KEY_TAIL, j) then Some(j + |KEY_TAIL|)
    else if KeyTypeAt(text, j) != 0 then KeyTypesThenTail(text, j + KeyTypeAt(text, j))
    else None
  }

  /** A key-type prefix at `j` is the one `KeyTypeAt` finds, and the tail
      cannot start there. */
  lemma KeyTypeAtPrefix(text: string, j: nat, n: nat)
    requires j + n <= |text| && 3 <= n <= 4 && IsKeyType(text[j..j + n])
    ensures KeyTypeAt(text, j) == n && !OccursAt(text, KEY_TAIL, j)
  {
    assert text[j..j + n][0] == text[j] != 'P';
    assert j + |KEY_TAIL| <= |text| ==> text[j..j + |KEY_TAIL|][0] == text[j];
  }

  /** The prefix a non-empty key-type sequence starts with. */
  function FirstKeyTypeLength(w: string): (n: nat)
    requires w != [] && IsKeyTypes(w)
    ensures 3 <= n <= 4 && n <= |w| && IsKeyType(w[..n]) && IsKeyTypes(w[n..])
  {
    if 4 <= |w| && IsKeyType(w[..4]) && IsKeyTypes(w[4..]) then 4 else 3
  }

  /** Every key-type prefix sequence followed by the tail is matched, and the
      match ends where the tail does. */
  lemma {:induction false} KeyTypesThenTailComplete(text: string, j: nat, stop: nat)
    requires j + |KEY_TAIL| <= stop <= |text| && OccursAt(text, KEY_TAIL, stop - |KEY_TAIL|)
    requires IsKeyTypes(text[j..stop - |KEY_TAIL|])
    ensures KeyTypesThenTail(text, j) == Some(stop)
    decreases stop - j
  {
    var e := stop - |KEY_TAIL|;
    if j < e {
      var n := FirstKeyTypeLength(text[j..e]);
      KeyTypesSplit(text, j, e);
      KeyTypesThenTailOver(text, j, n);
      KeyTypesThenTailComplete(text, j + n, stop);
    } else {
      assert OccursAt(text, KEY_TAIL, j);
    }
  }

  /** Over a key-type prefix of length `n` the matcher continues after it. */
  lemma KeyTypesThenTailOver(text: string, j: nat, n: nat)
    requires j + n <= |text| && 3 <= n <= 4 && IsKeyType(text[j..j + n])
    ensures KeyTypesThenTail(text, j) == KeyTypesThenTail(text, j + n)
  {
    KeyTypeAtPrefix(text, j, n);
    KeyTypesThenTailSkip(text, j);
  }

  /** A non-empty key-type sequence in `text[j..e]` is its first prefix and
      a key-type sequence after it. */
  lemma KeyTypesSplit(text: string, j: nat, e: nat)
    requires j < e <= |text| && IsKeyTypes(text[j..e])
    ensures var n := FirstKeyTypeLength(text[j..e]);
            j + n <= e && IsKeyType(text[j..j + n]) && IsKeyTypes(text[j + n..e])
  {
    SliceSplit(text, j, FirstKeyTypeLength(text[j..e]), e);
  }

  lemma SliceSplit(text: string, j: nat, n: nat, e: nat)
    requires j + n <= e <= |text|
    ensures text[j..e][..n] == text[j..j + n] && text[j..e][n..] == text[j + n..e]
  {
  }

  /** What the matcher consumes before the tail is a key-type prefix sequence. */
  lemma {:induction false} KeyTypesThenTailSound(text: string, j: nat, stop: nat)
    requires KeyTypesThenTail(text, j) == Some(stop)
    ensures j + |KEY_TAIL| <= stop && IsKeyTypes(text[j..stop - |KEY_TAIL|])
    decreases |text| - j
  {
    if OccursAt(text, KEY_TAIL, j) {
      assert text[j..j] == [];
    } else {
      var n := KeyTypeAt(text, j);
      KeyTypesThenTailStep(text, j);
      KeyTypesThenTailSound(text, j + n, stop);
      var w := text[j..stop - |KEY_TAIL|];
      assert w[..n] == text[j..j + n] && w[n..] == text[j + n..stop - |KEY_TAIL|];
      KeyTypesPrepend(w, n);
    }
  }

  /** Where a key-type prefix starts, the matcher steps over it. */
  lemma KeyTypesThenTailSkip(text: string, j: nat)
    requires !OccursAt(text, KEY_TAIL, j) && KeyTypeAt(text, j) != 0
    ensures KeyTypesThenTail(text, j) == KeyTypesThenTail(text, j + KeyTypeAt(text, j))
  {
  }

  /** Away from the tail, the matcher steps over one key-type prefix. */
  lemma KeyTypesThenTailStep(text: string, j: nat)
    requires KeyTypesThenTail(text, j).Some? && !OccursAt(text, KEY_TAIL, j)
    ensures KeyTypeAt(text, j) != 0
    ensures KeyTypesThenTail(text, j) == KeyTypesThenTail(text, j + KeyTypeAt(text, j))
  {
  }

  /** A key-type prefix followed by a key-type sequence is one. */
  lemma KeyTypesPrepend(w: string, n: nat)
    requires 3 <= n <= 4 && n <= |w| && IsKeyType(w[..n]) && IsKeyTypes(w[n..])
    ensures IsKeyTypes(w)
  {
  }

  const KEY_BEGIN := "-----BEGIN "
  const KEY_END := "-----END "

  /** A private-key marker (`KEY_BEGIN` or `KEY_END`, then the key types and
      the tail) starting at `i`, and where it ends. */
  function KeyMarkerAt(text: string, opening: string, i: nat): (r: Option<nat>)
    ensures r.Some? ==> OccursAt(text, opening, i) && i + |opening| + |KEY_TAIL| <= r.value <= |text|
    ensures r.Some? ==> OccursAt(text, KEY_TAIL, r.value - |KEY_TAIL|)
  {
    if OccursAt(text, opening, i) then KeyTypesThenTail(text, i + |opening|)
    else None
  }

  /** `matcher.find(from)`: the leftmost marker starting at or after `from`,
      as its start and end. */
  function FindKeyMarker(text: string, opening: string, from: nat): (r: Option<(nat, nat)>)
    ensures r.Some? ==> from <= r.value.0 && KeyMarkerAt(text, opening, r.value.0) == Some(r.value.1)
    ensures r.Some? ==> forall i :: from <= i < r.value.0 ==> KeyMarkerAt(text, opening, i).None?
    ensures r.None? ==> forall i :: from <= i ==> KeyMarkerAt(text, opening, i).None?
    decreases |text| - from
  {
    if from >= |text| then None
    else match KeyMarkerAt(text, opening, from)
      case Some(e) => Some((from, e))
      case None => FindKeyMarker(text, opening, from + 1)
  }

  /** The private key of a PEM text: from the first BEGIN marker to the end of
      the first END marker at or after it, trimmed. */
  function PrivateKey(text: string): (r: Result<string>)
    ensures r.Failure? <==> FindKeyMarker(text, KEY_BEGIN, 0).None? ||
                            FindKeyMarker(text, KEY_END, FindKeyMarker(text, KEY_BEGIN, 0).value.0).None?
    ensures r.Failure? ==> r.error == AuthenticationError("cannot read certificate key")
    ensures r.Success? ==>
              r.value == text[FindKeyMarker(text, KEY_BEGIN, 0).value.0 ..
                              FindKeyMarker(text, KEY_END, FindKeyMarker(text, KEY_BEGIN, 0).value.0).value.1]
  {
    var opening := FindKeyMarker(text, KEY_BEGIN, 0);
    if opening.None? then Failure(AuthenticationError("cannot read certificate key"))
    else
      var closing := FindKeyMarker(text, KEY_END, opening.value.0);
      if closing.None? then Failure(AuthenticationError("cannot read certificate key"))
      else
        TrimmedKeySlice(text, opening.value, closing.value);
        Success(Trim(text[opening.value.0..closing.value.1]))
  }

  /** The key keeps both markers, so trimming takes nothing away: it is the
      text from the first BEGIN marker up to the end of the END marker. */
  lemma PrivateKeyIsMarkedSlice(text: string)
    requires PrivateKey(text).Success?
    ensures var key := PrivateKey(text).value;
            StartsWith(key, KEY_BEGIN) && EndsWith(key, KEY_TAIL) &&
            OccursAt(text, key, FindKeyMarker(text, KEY_BEGIN, 0).value.0)
  {
    var opening := FindKeyMarker(text, KEY_BEGIN, 0);
    var start := opening.value.0;
    var closing := FindKeyMarker(text, KEY_END, start);
    var stop := closing.value.1;
    MarkerFacts(text, KEY_BEGIN, start, opening.value.1);
    MarkerFacts(text, KEY_END, closing.value.0, stop);
    KeySliceFacts(text, start, stop);
  }

  /** What a marker found at `i` and ending at `e` guarantees. */
  lemma MarkerFacts(text: string, opening: string, i: nat, e: nat)
    requires KeyMarkerAt(text, opening, i) == Some(e)
    ensures OccursAt(text, opening, i) && i + |opening| + |KEY_TAIL| <= e <= |text|
    ensures OccursAt(text, KEY_TAIL, e - |KEY_TAIL|)
  {
  }

  /** The slice from a BEGIN marker to the end of an END marker at or after
      it is left unchanged by trimming. */
  lemma TrimmedKeySlice(text: string, opening: (nat, nat), closing: (nat, nat))
    requires KeyMarkerAt(text, KEY_BEGIN, opening.0) == Some(opening.1)
    requires opening.0 <= closing.0 && KeyMarkerAt(text, KEY_END, closing.0) == Some(closing.1)
    ensures opening.0 <= closing.1 <= |text|
    ensures Trim(text[opening.0..closing.1]) == text[opening.0..closing.1]
  {
    MarkerFacts(text, KEY_BEGIN, opening.0, opening.1);
    MarkerFacts(text, KEY_END, closing.0, closing.1);
    KeySliceFacts(text, opening.0, closing.1);
  }

  /** A slice from a BEGIN marker to the end of a tail starts and ends with
      the markers' visible characters. */
  lemma KeySliceFacts(text: string, start: nat, stop: nat)
    requires OccursAt(text, KEY_BEGIN, start) && start + |KEY_TAIL| <= stop
    requires OccursAt(text, KEY_TAIL, stop - |KEY_TAIL|)
    ensures Trim(text[start..stop]) == text[start..stop]
    ensures StartsWith(text[start..stop], KEY_BEGIN) && EndsWith(text[start..stop], KEY_TAIL)
    ensures OccursAt(text, text[start..stop], start)
  {
    var key := text[start..stop];
    assert key[..|KEY_BEGIN|] == text[start..start + |KEY_BEGIN|];
    assert key[|key| - |KEY_TAIL|..] == text[stop - |KEY_TAIL|..stop];
    assert key[0] == '-' && key[|key| - 1] == '-';
    TrimKeepsVisibleEnds(key);
  }

  /** The client identity a certificate strategy presents: a PKCS12 store, or
      the certificate chain and private key cut out of a PEM file. */
  function LoadIdentity(readFile: string -> Option<string>, certificate: string, password: string): (r: Result<Identity>)
    ensures IsPkcs12(certificate) ==> r == Success(Pkcs12(certificate, password))
    ensures !IsPkcs12(certificate) && readFile(certificate).None? ==> r == Failure(WrappedAuthentication(IoError))
    ensures !IsPkcs12(certificate) && readFile(certificate).Some? ==>
              (r.Success? <==> CertificateBlocks(readFile(certificate).value, 0).Success? &&
                               PrivateKey(readFile(certificate).value).Success?)
    ensures r.Success? && r.value.Pem? ==>
              r.value.chain == CertificateBlocks(readFile(certificate).value, 0).value &&
              r.value.key == PrivateKey(readFile(certificate).value).value
  {
    if IsPkcs12(certificate) then Success(Pkcs12(certificate, password))
    else
      match readFile(certificate)
      case None => Failure(WrappedAuthentication(IoError))
      case Some(text) =>
        var chain :- CertificateBlocks(text, 0);
        var key :- PrivateKey(text);
        Success(Pem(certificate, chain, key, password))
  }
}
