// UTF-8 as in section 4 of RFC 3629, and the bounded patches of export-forkverse.py.
module Utf8 {

  type Byte = x: int | 0 <= x < 256

  type Bytes = seq<Byte>

  predicate Tail(b: Byte) { 0x80 <= b <= 0xBF }

  // The range of the second byte after a lead byte of a longer character.
  predicate Second(lead: Byte, b: Byte) {
    if lead == 0xE0 then 0xA0 <= b <= 0xBF
    else if lead == 0xED then 0x80 <= b <= 0x9F
    else if lead == 0xF0 then 0x90 <= b <= 0xBF
    else if lead == 0xF4 then 0x80 <= b <= 0x8F
    else Tail(b)
  }

  // Bytes of the character a lead byte starts, 0 for a byte that starts none.
  function LeadLength(b: Byte): (n: nat)
    ensures n <= 4
  {
    if b <= 0x7F then 1
    else if 0xC2 <= b <= 0xDF then 2
    else if 0xE0 <= b <= 0xEF then 3
    else if 0xF0 <= b <= 0xF4 then 4
    else 0
  }

  // The first k bytes look like the start of one character.
  predicate Starts(s: Bytes, k: nat) {
    && 1 <= k <= |s| && k <= LeadLength(s[0])
    && (k >= 2 ==> Second(s[0], s[1]))
    && (k >= 3 ==> Tail(s[2]))
    && (k >= 4 ==> Tail(s[3]))
  }

  // Bytes of the whole character in front, or 0.
  function Front(s: Bytes): (n: nat)
    ensures n <= |s|
  {
    if s != [] && Starts(s, LeadLength(s[0])) then LeadLength(s[0]) else 0
  }

  // A sequence of whole characters.
  predicate Valid(s: Bytes)
    decreases |s|
  {
    s == [] || (Front(s) > 0 && Valid(s[Front(s)..]))
  }

  // ----- Characters

  // A Unicode scalar value: no surrogate, and at most U+10FFFF.
  predicate ScalarValue(c: int) { 0 <= c < 0xD800 || 0xE000 <= c <= 0x10FFFF }

  // Its octets, written by groups of six value bits.
  function Octets(c: int): (s: Bytes)
    requires ScalarValue(c)
  {
    var low, middle := c % 64, c / 64 % 64;
    if c <= 0x7F then [c]
    else if c <= 0x7FF then [0xC0 + c / 64, 0x80 + low]
    else if c <= 0xFFFF then [0xE0 + c / 4096, 0x80 + middle, 0x80 + low]
    else [0xF0 + c / 262144, 0x80 + c / 4096 % 64, 0x80 + middle, 0x80 + low]
  }

  // The groups put together again.
  lemma Groups(c: nat)
    ensures c == c / 64 * 64 + c % 64 && c / 64 == c / 4096 * 64 + c / 64 % 64
    ensures c / 4096 == c / 262144 * 64 + c / 4096 % 64
  {}

  lemma GroupsUnique(c: nat, a: nat, b: nat)
    requires c == a * 64 + b && b < 64
    ensures c / 64 == a && c % 64 == b
  {}

  function Encoded(text: seq<int>): Bytes
    requires forall i :: 0 <= i < |text| ==> ScalarValue(text[i])
  {
    if text == [] then [] else Octets(text[0]) + Encoded(text[1..])
  }

  lemma OctetsAreFront(c: int, rest: Bytes)
    requires ScalarValue(c)
    ensures Front(Octets(c) + rest) == |Octets(c)| && (Octets(c) + rest)[|Octets(c)|..] == rest
  {
    Groups(c);
    var s, n := Octets(c) + rest, |Octets(c)|;
    assert forall i :: 0 <= i < n ==> s[i] == Octets(c)[i];
    assert s[n..] == rest;
    LeadIs(c);
    hide Octets;
    assert Starts(s, n);
  }

  // The lead byte tells the length, and the second byte of a character lies in its range.
  lemma LeadIs(c: int)
    requires ScalarValue(c)
    ensures var s := Octets(c);
            && s != [] && LeadLength(s[0]) == |s| && (|s| >= 2 ==> Second(s[0], s[1]))
            && forall i :: 2 <= i < |s| ==> Tail(s[i])
  {
    Groups(c);
  }

  // The character that whole octets in front stand for.
  lemma FrontIsOctets(s: Bytes) returns (c: int)
    requires Front(s) > 0
    ensures ScalarValue(c) && Octets(c) == s[..Front(s)]
  {
    var n := Front(s);
    assert Starts(s, n) && LeadLength(s[0]) == n;
    hide Octets, Front;
    if n == 1 {
      c := s[0];
      OneOctet(s[0]);
    } else if n == 2 {
      c := TwoOctets(s[0], s[1]);
    } else if n == 3 {
      c := ThreeOctets(s[0], s[1], s[2]);
    } else {
      c := FourOctets(s[0], s[1], s[2], s[3]);
    }
  }

  lemma OneOctet(a: Byte)
    requires a <= 0x7F
    ensures ScalarValue(a) && Octets(a) == [a]
  {}

  lemma TwoOctets(a: Byte, b: Byte) returns (c: int)
    requires 0xC2 <= a <= 0xDF && Tail(b)
    ensures ScalarValue(c) && Octets(c) == [a, b]
  {
    c := (a as int - 0xC0) * 64 + (b as int - 0x80);
    GroupsUnique(c, a as int - 0xC0, b as int - 0x80);
  }

  lemma ThreeOctets(a: Byte, b: Byte, d: Byte) returns (c: int)
    requires 0xE0 <= a <= 0xEF && Second(a, b) && Tail(d)
    ensures ScalarValue(c) && Octets(c) == [a, b, d]
  {
    var high := (a as int - 0xE0) * 64 + (b as int - 0x80);
    c := high * 64 + (d as int - 0x80);
    GroupsUnique(c, high, d as int - 0x80);
    GroupsUnique(high, a as int - 0xE0, b as int - 0x80);
    Groups(c);
  }

  lemma FourOctets(a: Byte, b: Byte, d: Byte, e: Byte) returns (c: int)
    requires 0xF0 <= a <= 0xF4 && Second(a, b) && Tail(d) && Tail(e)
    ensures ScalarValue(c) && Octets(c) == [a, b, d, e]
  {
    var top := (a as int - 0xF0) * 64 + (b as int - 0x80);
    var high := top * 64 + (d as int - 0x80);
    c := high * 64 + (e as int - 0x80);
    GroupsUnique(c, high, e as int - 0x80);
    GroupsUnique(high, top, d as int - 0x80);
    GroupsUnique(top, a as int - 0xF0, b as int - 0x80);
    Groups(c);
  }

  // The valid texts are exactly the encoded sequences of scalar values.
  lemma {:induction false} EncodedIsValid(text: seq<int>)
    requires forall i :: 0 <= i < |text| ==> ScalarValue(text[i])
    ensures Valid(Encoded(text))
  {
    if text != [] {
      EncodedIsValid(text[1..]);
      OctetsAreFront(text[0], Encoded(text[1..]));
      hide Front, Octets;
    }
  }

  lemma {:induction false} ValidIsEncoded(s: Bytes) returns (text: seq<int>)
    requires Valid(s)
    ensures (forall i :: 0 <= i < |text| ==> ScalarValue(text[i])) && Encoded(text) == s
    decreases |s|
  {
    text := [];
    if s != [] {
      var c := FrontIsOctets(s);
      var rest := ValidIsEncoded(s[Front(s)..]);
      hide Front, Octets;
      text := [c] + rest;
      assert s == s[..Front(s)] + s[Front(s)..];
    }
  }

  // ----- Decoding

  // An unexpected end of data: the beginning of a character that goes on.
  predicate Incomplete(s: Bytes) {
    s != [] && Starts(s, |s|) && |s| < LeadLength(s[0])
  }

  // Where strict decoding stops: after the last whole character it reads.
  function Decodable(s: Bytes): (n: nat)
    ensures n <= |s|
    decreases |s|
  {
    if Front(s) == 0 then 0 else Front(s) + Decodable(s[Front(s)..])
  }

  datatype Decoded = Text(text: Bytes) | DecodeError(start: nat, unexpectedEnd: bool)

  // Python's strict decoder, with the start and reason of its error.
  function Decode(s: Bytes): Decoded {
    var n := Decodable(s);
    if n == |s| then Text(s) else DecodeError(n, Incomplete(s[n..]))
  }

  lemma {:induction false} DecodablePrefix(s: Bytes)
    ensures Valid(s[..Decodable(s)]) && (Valid(s) <==> Decodable(s) == |s|)
    decreases |s|
  {
    var n := Front(s);
    if n > 0 {
      DecodablePrefix(s[n..]);
      var d := Decodable(s);
      assert s[..d][n..] == s[n..][..d - n];
      assert Front(s[..d]) == n;
    }
  }

  // Every valid prefix ends within what the decoder reads.
  lemma {:induction false} ValidWithinDecodable(s: Bytes, k: nat)
    requires k <= |s| && Valid(s[..k])
    ensures k <= Decodable(s)
    decreases |s|
  {
    if k > 0 {
      var n := Front(s[..k]);
      assert Front(s) == n;
      assert s[..k][n..] == s[n..][..k - n];
      ValidWithinDecodable(s[n..], k - n);
    }
  }

  // Cutting valid text leaves at most an incomplete character.
  lemma {:induction false} CutIsIncomplete(s: Bytes, k: nat)
    requires Valid(s) && k <= |s|
    ensures var cut := s[..k]; Decodable(cut) == k || Incomplete(cut[Decodable(cut)..])
    decreases |s|
  {
    hide Incomplete, Starts;
    if s != [] {
      var n, cut := Front(s), s[..k];
      CutFront(s, k);
      if n <= k {
        assert cut[n..] == s[n..][..k - n];
        CutIsIncomplete(s[n..], k - n);
        var d := Decodable(cut[n..]);
        assert cut[n..][d..] == cut[n + d..];
      } else if k > 0 {
        assert cut[0..] == cut;
      }
    }
  }

  // A cut inside the first character leaves its beginning, a later one the whole of it.
  lemma CutFront(s: Bytes, k: nat)
    requires k <= |s| && Front(s) > 0
    ensures Front(s) <= k ==> Front(s[..k]) == Front(s)
    ensures 0 < k < Front(s) ==> Front(s[..k]) == 0 && Incomplete(s[..k])
  {}

  // ----- limited_patch

  // The text kept of a diff and whether it is truncated, from at most limit + 1 bytes read.
  function LimitedPatch(output: Bytes, limit: nat): (Bytes, bool) {
    var data := FirstBytes(output, limit + 1);
    var truncated := |data| > limit;
    var bounded := FirstBytes(data, limit);
    match Decode(bounded)
    case Text(text) => (text, truncated)
    case DecodeError(start, unexpectedEnd) =>
      if truncated && unexpectedEnd then (bounded[..start], truncated) else ([], true)
  }

  function FirstBytes(s: Bytes, n: nat): (r: Bytes)
    ensures r <= s && |r| == (if |s| > n then n else |s|)
  {
    if |s| > n then s[..n] else s
  }

  // The decoder keeps the longest whole-character prefix of a cut.
  lemma CutLongest(output: Bytes, n: nat, j: nat)
    requires n <= |output| && j <= n && Valid(output[..j])
    ensures j <= Decodable(output[..n])
  {
    assert output[..n][..j] == output[..j];
    ValidWithinDecodable(output[..n], j);
  }

  // On valid UTF-8 the patch is what the decoder reads of the first limit bytes.
  lemma LimitedPatchOfValid(output: Bytes, limit: nat)
    requires Valid(output)
    ensures var bounded := FirstBytes(output, limit);
            LimitedPatch(output, limit) == (bounded[..Decodable(bounded)], |output| > limit)
  {
    hide Decodable, Incomplete, Valid;
    var bounded := FirstBytes(output, limit);
    assert FirstBytes(FirstBytes(output, limit + 1), limit) == bounded;
    assert bounded == output[..|bounded|];
    CutIsIncomplete(output, |bounded|);
    DecodablePrefix(output);
    assert bounded[..|bounded|] == bounded;
    assert output[..|output|] == output;
  }

  // On valid UTF-8 the kept text is the longest whole-character prefix within the limit.
  lemma LimitedPatchIsLongest(output: Bytes, limit: nat)
    requires Valid(output)
    ensures var (text, truncated) := LimitedPatch(output, limit);
            && text <= output && Valid(text) && |text| <= limit
            && (forall k :: 0 <= k <= |output| && k <= limit && Valid(output[..k]) ==> k <= |text|)
            && (truncated <==> |output| > limit)
  {
    hide Decodable, Valid, LimitedPatch;
    LimitedPatchOfValid(output, limit);
    var bounded := FirstBytes(output, limit);
    DecodablePrefix(bounded);
    assert bounded == output[..|bounded|];
    forall k | 0 <= k <= |output| && k <= limit && Valid(output[..k]) ensures k <= Decodable(bounded) {
      CutLongest(output, |bounded|, k);
    }
  }

  // On any other bytes the text is valid, within the limit, and a prefix or dropped entirely.
  lemma LimitedPatchIsValid(output: Bytes, limit: nat)
    ensures var (text, truncated) := LimitedPatch(output, limit);
            && Valid(text) && |text| <= limit && text <= output && (text < output ==> truncated)
  {
    var bounded := FirstBytes(FirstBytes(output, limit + 1), limit);
    DecodablePrefix(bounded);
    assert bounded <= output;
    assert bounded[..|bounded|] == bounded;
  }

  // Some whole octets complete the beginning of a character.
  lemma Completed(s: Bytes) returns (c: int)
    requires Incomplete(s)
    ensures ScalarValue(c) && s < Octets(c)
  {
    var whole := Extended(s);
    hide Starts, Octets;
    assert Front(whole) == |whole| && whole[..|whole|] == whole;
    c := FrontIsOctets(whole);
  }

  lemma {:induction false} Extended(s: Bytes) returns (whole: Bytes)
    requires s != [] && Starts(s, |s|)
    ensures s <= whole && |whole| == LeadLength(s[0]) && Starts(whole, |whole|)
    decreases 4 - |s|
  {
    whole := s;
    if |s| < LeadLength(s[0]) {
      var longer := OneOctetMore(s);
      hide Starts;
      whole := Extended(longer);
    }
  }

  lemma OneOctetMore(s: Bytes) returns (longer: Bytes)
    requires s != [] && Starts(s, |s|) && |s| < LeadLength(s[0])
    ensures s < longer && |longer| == |s| + 1 && longer[0] == s[0] && Starts(longer, |longer|)
  {
    var b: Byte := if |s| == 1 && s[0] == 0xE0 then 0xA0 else if |s| == 1 && s[0] == 0xF0 then 0x90 else 0x80;
    longer := s + [b];
  }

  lemma BeginningIsIncomplete(s: Bytes, c: int)
    requires ScalarValue(c) && s != [] && s < Octets(c)
    ensures Incomplete(s)
  {
    LeadIs(c);
    hide Octets;
  }

  // Valid text up to k, and then the beginning of one more character.
  ghost predicate CutInside(s: Bytes, k: int) {
    0 <= k < |s| && Valid(s[..k]) && exists c :: ScalarValue(c) && s[k..] < Octets(c)
  }

  // The kept text on any bytes: the first limit bytes when they are valid; when
  // the limit cut them inside a last character, what comes before it; else nothing.
  lemma LimitedPatchExactly(output: Bytes, limit: nat, k: nat)
    requires k <= |FirstBytes(output, limit)|
    ensures var bounded := FirstBytes(output, limit);
            && (Valid(bounded) ==> LimitedPatch(output, limit) == (bounded, |output| > limit))
            && (CutInside(bounded, k) ==>
                LimitedPatch(output, limit) == if |output| > limit then (bounded[..k], true) else ([], true))
            && (!Valid(bounded) && (forall j :: !CutInside(bounded, j)) ==> LimitedPatch(output, limit) == ([], true))
  {
    hide Octets, Decodable, Valid, Incomplete;
    var bounded := FirstBytes(output, limit);
    assert FirstBytes(FirstBytes(output, limit + 1), limit) == bounded;
    DecodablePrefix(bounded);
    var n := Decodable(bounded);
    if n < |bounded| && Incomplete(bounded[n..]) {
      var c := Completed(bounded[n..]);
      assert CutInside(bounded, n);
    }
    if CutInside(bounded, k) {
      var c :| ScalarValue(c) && bounded[k..] < Octets(c);
      BeginningIsIncomplete(bounded[k..], c);
      StopsAtCut(bounded, k);
    }
    assert bounded[..|bounded|] == bounded;
  }

  // The decoder stops where an incomplete end begins.
  lemma {:induction false} StopsAtCut(s: Bytes, k: nat)
    requires k < |s| && Valid(s[..k]) && Incomplete(s[k..])
    ensures Decodable(s) == k && !Valid(s)
    decreases |s|
  {
    hide Incomplete, Starts;
    if k == 0 {
      assert s[0..] == s;
      IncompleteIsNoFront(s);
    } else {
      var n := Front(s[..k]);
      FrontOfPrefix(s, k);
      assert s[..k][n..] == s[n..][..k - n] && s[n..][k - n..] == s[k..];
      StopsAtCut(s[n..], k - n);
    }
  }

  lemma IncompleteIsNoFront(s: Bytes)
    requires Incomplete(s)
    ensures Front(s) == 0
  {}

  lemma FrontOfPrefix(s: Bytes, k: nat)
    requires k <= |s| && Front(s[..k]) > 0
    ensures Front(s) == Front(s[..k])
  {}

  // ----- The patch budget of export_history

  const MAX_PATCH_BYTES := 16000
  const TOTAL_PATCH_BYTES := 2 * 1024 * 1024

  // A change as listed: binary ones get no patch; output is its diff.
  datatype Diff = Diff(binary: bool, output: Bytes)

  datatype Patch = NoPatch | OverBudget | Kept(text: Bytes, truncated: bool)

  function Emitted(patches: seq<Patch>): nat {
    if patches == [] then 0
    else
      var last := patches[|patches| - 1];
      Emitted(patches[..|patches| - 1]) + (if last.Kept? then |last.text| else 0)
  }

  function Min(a: nat, b: nat): nat { if b < a then b else a }

  // What each change of a history gets, given what its predecessors used.
  predicate PatchOf(d: Diff, used: nat, p: Patch) {
    if d.binary then p.NoPatch?
    else if TOTAL_PATCH_BYTES <= used then p.OverBudget?
    else
      var limit := Min(MAX_PATCH_BYTES, TOTAL_PATCH_BYTES - used);
      var (text, truncated) := LimitedPatch(d.output, limit);
      p == Kept(text, truncated)
  }

  // A text change gets the longest whole-character prefix of its diff within
  // 16000 bytes and what is left of two MiB, while anything is left.
  lemma PatchIsLongest(d: Diff, used: nat, p: Patch)
    requires PatchOf(d, used, p)
    ensures d.binary ==> p == NoPatch
    ensures !d.binary && used >= 2097152 ==> p == OverBudget
    ensures !d.binary && used < 2097152 ==>
              p.Kept? && Valid(p.text) && p.text <= d.output && |p.text| <= 16000 && used + |p.text| <= 2097152
    ensures !d.binary && used < 2097152 && Valid(d.output) ==>
              && (p.truncated <==> |d.output| > 16000 || used + |d.output| > 2097152)
              && forall k :: 0 <= k <= |d.output| && k <= 16000 && used + k <= 2097152 && Valid(d.output[..k]) ==>
                   k <= |p.text|
  {
    hide Valid, LimitedPatch;
    if !d.binary && used < 2097152 {
      var limit := Min(16000, 2097152 - used);
      LimitedPatchIsValid(d.output, limit);
      if Valid(d.output) { LimitedPatchIsLongest(d.output, limit); }
    }
  }

  // The patches of the first changes, each after what its predecessors used.
  predicate PatchesOf(diffs: seq<Diff>, patches: seq<Patch>) {
    && |patches| <= |diffs|
    && forall i :: 0 <= i < |patches| ==> PatchOf(diffs[i], Emitted(patches[..i]), patches[i])
  }

  lemma PatchesSnoc(diffs: seq<Diff>, patches: seq<Patch>, p: Patch)
    requires PatchesOf(diffs, patches) && |patches| < |diffs| && PatchOf(diffs[|patches|], Emitted(patches), p)
    ensures PatchesOf(diffs, patches + [p])
  {
    hide PatchOf, Emitted;
    var longer := patches + [p];
    assert forall i :: 0 <= i < |patches| ==> longer[..i] == patches[..i];
    assert longer[..|patches|] == patches;
  }

  method ExportPatches(diffs: seq<Diff>) returns (patches: seq<Patch>, budget: int)
    ensures |patches| == |diffs| && PatchesOf(diffs, patches)
    ensures budget == TOTAL_PATCH_BYTES - Emitted(patches) >= 0
  {
    hide LimitedPatch, Valid, Decode, PatchesOf;
    patches, budget := [], TOTAL_PATCH_BYTES;
    assert PatchesOf(diffs, []) by { NoPatches(diffs); }
    for k := 0 to |diffs|
      invariant |patches| == k && PatchesOf(diffs, patches)
      invariant budget == TOTAL_PATCH_BYTES - Emitted(patches) >= 0
    {
      var next := NoPatch;
      if !diffs[k].binary {
        if budget <= 0 {
          next := OverBudget;
        } else {
          var limit := Min(MAX_PATCH_BYTES, budget);
          LimitedPatchIsValid(diffs[k].output, limit);
          var (text, truncated) := LimitedPatch(diffs[k].output, limit);
          next := Kept(text, truncated);
          budget := budget - |text|;
        }
      }
      EmittedSnoc(patches, next);
      PatchesSnoc(diffs, patches, next);
      patches := patches + [next];
    }
  }

  lemma NoPatches(diffs: seq<Diff>)
    ensures PatchesOf(diffs, [])
  {}

  lemma EmittedSnoc(patches: seq<Patch>, p: Patch)
    ensures Emitted(patches + [p]) == Emitted(patches) + (if p.Kept? then |p.text| else 0)
  {
    assert (patches + [p])[..|patches|] == patches;
  }
}
