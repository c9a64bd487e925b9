/** The FIX 4.2 tag=value codec. Strings stand for their UTF-8 bytes, one char per byte. */
module FixCodec {
  import opened Base
  import opened Decimals

  const SOH: char := 1 as char
  const BEGIN_STRING := "FIX.4.2"
  const SENDING_TIME := "20200101-00:00:00.000"

  type Field = (string, string)

  datatype FixError = EmptyMessage | ChecksumMismatch | MissingTag(tag: string)

  // ----- encoding

  function FieldBody(f: Field): string { f.0 + "=" + f.1 }

  /** The fields one after the other, each closed by SOH. */
  function Flatten(fields: seq<Field>): string {
    if fields == [] then "" else Flatten(fields[..|fields| - 1]) + FieldBody(fields[|fields| - 1]) + [SOH]
  }

  function ByteSum(s: string): nat {
    if s == "" then 0 else ByteSum(s[..|s| - 1]) + s[|s| - 1] as int
  }

  /** The sum of all bytes modulo 256 (FIX 4.2, Appendix B). */
  function Checksum(s: string): (c: nat)
    ensures c < 256
  {
    ByteSum(s) % 256
  }

  function ChecksumText(s: string): (t: string)
    ensures |t| == 3 && AllDigits(t)
  {
    assert Pow10(3) == 1000;
    Padded(Checksum(s), 3)
  }

  function MidFields(sender: string, target: string, msgType: string, seqNo: nat, body: seq<Field>): seq<Field> {
    [("35", msgType), ("49", sender), ("56", target), ("34", NatToString(seqNo)), ("52", SENDING_TIME)] + body
  }

  /** Everything before the trailer: begin string, body length, body. */
  function HeadFields(sender: string, target: string, msgType: string, seqNo: nat, body: seq<Field>): seq<Field> {
    var mid := MidFields(sender, target, msgType, seqNo, body);
    [("8", BEGIN_STRING), ("9", NatToString(|Flatten(mid)|))] + mid
  }

  function AllFields(sender: string, target: string, msgType: string, seqNo: nat, body: seq<Field>): seq<Field> {
    var head := HeadFields(sender, target, msgType, seqNo, body);
    head + [("10", ChecksumText(Flatten(head)))]
  }

  function Encode(sender: string, target: string, msgType: string, seqNo: nat, body: seq<Field>): string {
    Flatten(AllFields(sender, target, msgType, seqNo, body))
  }

  // ----- decoding

  /** The first position of c, or the length. */
  function IndexOf(s: string, c: char): (i: nat)
    ensures i <= |s| && c !in s[..i] && (i < |s| ==> s[i] == c)
  {
    if s == "" then 0
    else if s[0] == c then 0
    else
      assert forall j :: 0 < j <= |s| ==> s[..j] == [s[0]] + s[1..][..j - 1];
      1 + IndexOf(s[1..], c)
  }

  function SplitOn(s: string): seq<string>
    decreases |s|
  {
    var i := IndexOf(s, SOH);
    if i == |s| then [s] else [s[..i]] + SplitOn(s[i + 1..])
  }

  /** A field joins the map under its tag, a later one replacing an earlier one; text without '=' is skipped. */
  function Insert(m: map<string, string>, text: string): map<string, string> {
    var e := IndexOf(text, '=');
    if e == |text| then m else m[text[..e] := text[e + 1..]]
  }

  function TagMap(texts: seq<string>): map<string, string> {
    if texts == [] then map[] else Insert(TagMap(texts[..|texts| - 1]), texts[|texts| - 1])
  }

  predicate TrailerAt(s: string, p: nat) { p + 4 <= |s| && s[p] == SOH && s[p + 1] == '1' && s[p + 2] == '0' && s[p + 3] == '=' }

  /** The last position below n where a trailer starts. */
  function LastTrailer(s: string, n: nat): (p: Option<nat>)
    ensures p.Some? ==> p.value < n && TrailerAt(s, p.value) && forall q: nat :: p.value < q < n ==> !TrailerAt(s, q)
    ensures p.None? ==> forall q: nat :: q < n ==> !TrailerAt(s, q)
  {
    if n == 0 then None else if TrailerAt(s, n - 1) then Some(n - 1) else LastTrailer(s, n - 1)
  }

  function TrimEnd(s: string): string {
    if s != "" && s[|s| - 1] == SOH then TrimEnd(s[..|s| - 1]) else s
  }

  /** A message without any trailer is taken unchecked. */
  predicate ChecksumHolds(raw: string) {
    match LastTrailer(raw, |raw|)
    case None => true
    case Some(p) => TrimEnd(raw[p + 4..]) == ChecksumText(raw[..p] + [SOH])
  }

  function Decode(raw: string): Result<map<string, string>, FixError> {
    if raw == "" then Err(EmptyMessage)
    else if !ChecksumHolds(raw) then Err(ChecksumMismatch)
    else
      var m := TagMap(SplitOn(raw));
      if "35" in m then Ok(m) else Err(MissingTag("35"))
  }

  // ----- round trip

  predicate FieldOk(f: Field) { '=' !in f.0 && SOH !in f.0 && SOH !in f.1 }

  ghost predicate FieldsOk(fields: seq<Field>) { forall i :: 0 <= i < |fields| ==> FieldOk(fields[i]) }

  function Bodies(fields: seq<Field>): seq<string> {
    if fields == [] then [] else Bodies(fields[..|fields| - 1]) + [FieldBody(fields[|fields| - 1])]
  }

  function MapOf(fields: seq<Field>): map<string, string> {
    if fields == [] then map[] else MapOf(fields[..|fields| - 1])[fields[|fields| - 1].0 := fields[|fields| - 1].1]
  }

  lemma IndexOfPrefix(s: string, c: char, rest: string)
    requires c !in s
    ensures IndexOf(s + [c] + rest, c) == |s|
  {
    var t := s + [c] + rest;
    assert t[|s|] == c;
    assert forall j :: 0 <= j < |s| ==> t[j] == s[j];
  }

  lemma SplitHead(s: string, rest: string)
    requires SOH !in s
    ensures SplitOn(s + [SOH] + rest) == [s] + SplitOn(rest)
  {
    IndexOfPrefix(s, SOH, rest);
    assert (s + [SOH] + rest)[..|s|] == s && (s + [SOH] + rest)[|s| + 1..] == rest;
  }

  lemma LastMoves<T>(a: seq<T>, b: seq<T>, c: seq<T>)
    ensures a + b + c == a + (b + c)
  {
  }

  lemma {:induction false} FlattenSplits(fields: seq<Field>, rest: string)
    requires FieldsOk(fields)
    ensures SplitOn(Flatten(fields) + rest) == Bodies(fields) + SplitOn(rest)
  {
    if fields == [] {
      assert Flatten(fields) + rest == rest;
    } else {
      var init, text := fields[..|fields| - 1], FieldBody(fields[|fields| - 1]);
      FlattenSplits(init, text + [SOH] + rest);
      LastMoves(Flatten(init), text, [SOH]);
      LastMoves(Flatten(init), text + [SOH], rest);
      SplitHead(text, rest);
      LastMoves(Bodies(init), [text], SplitOn(rest));
    }
  }

  lemma {:induction false} TagMapOfBodies(fields: seq<Field>)
    requires FieldsOk(fields)
    ensures TagMap(Bodies(fields)) == MapOf(fields)
  {
    if fields != [] {
      var init, last := fields[..|fields| - 1], fields[|fields| - 1];
      TagMapOfBodies(init);
      var texts := Bodies(fields);
      assert texts[..|texts| - 1] == Bodies(init) && texts[|texts| - 1] == FieldBody(last);
      IndexOfPrefix(last.0, '=', last.1);
      var text := FieldBody(last);
      assert text == last.0 + ['='] + last.1;
      assert text[..|last.0|] == last.0 && text[|last.0| + 1..] == last.1;
    }
  }

  lemma SplitEmpty()
    ensures SplitOn("") == [""]
  {
  }

  lemma TagMapSkipsEmpty(texts: seq<string>)
    ensures TagMap(texts + [""]) == TagMap(texts)
  {
    assert (texts + [""])[..|texts|] == texts;
  }

  /** Splitting and mapping what was flattened gives the fields back. */
  lemma FieldsComeBack(fields: seq<Field>)
    requires FieldsOk(fields)
    ensures TagMap(SplitOn(Flatten(fields))) == MapOf(fields)
  {
    FlattenSplits(fields, "");
    assert Flatten(fields) + "" == Flatten(fields);
    SplitEmpty();
    TagMapSkipsEmpty(Bodies(fields));
    TagMapOfBodies(fields);
  }

  // ----- the trailer

  /** A message body closed by a trailer with these three digits. */
  function Sealed(p: string, digits: string): string { p + "10=" + digits + [SOH] }

  lemma SealedTrailer(p: string, digits: string)
    requires p != "" && |digits| == 3 && AllDigits(digits) && p[|p| - 1] == SOH
    ensures var raw := Sealed(p, digits);
      LastTrailer(raw, |raw|) == Some(|p| - 1) && raw[..|p| - 1] + [SOH] == p && TrimEnd(raw[|p| + 3..]) == digits
  {
    var raw := Sealed(p, digits);
    assert TrailerAt(raw, |p| - 1);
    forall q: nat | |p| <= q < |raw| ensures !TrailerAt(raw, q) {
      if |p| <= q < |p| + 3 { assert raw[q] == "10="[q - |p|]; }
      else if q < |p| + 6 { assert raw[q] == digits[q - |p| - 3]; }
    }
    var trail := raw[|p| + 3..];
    assert trail == digits + [SOH];
    assert trail[..|trail| - 1] == digits && digits[2] != SOH;
  }

  lemma SealedChecks(p: string, digits: string)
    requires p != "" && |digits| == 3 && AllDigits(digits) && p[|p| - 1] == SOH
    ensures ChecksumHolds(Sealed(p, digits)) <==> digits == ChecksumText(p)
  {
    SealedTrailer(p, digits);
  }

  lemma FlattenEnds(fields: seq<Field>)
    requires fields != []
    ensures Flatten(fields) != "" && Flatten(fields)[|Flatten(fields)| - 1] == SOH
  {
  }

  lemma {:induction false} FlattenAppends(a: seq<Field>, b: seq<Field>)
    ensures Flatten(a + b) == Flatten(a) + Flatten(b)
  {
    if b == [] {
      assert a + b == a;
    } else {
      var init := b[..|b| - 1];
      assert (a + b)[..|a + b| - 1] == a + init;
      FlattenAppends(a, init);
    }
  }

  lemma EncodeIsSealed(sender: string, target: string, msgType: string, seqNo: nat, body: seq<Field>)
    ensures var p := Flatten(HeadFields(sender, target, msgType, seqNo, body));
      Encode(sender, target, msgType, seqNo, body) == Sealed(p, ChecksumText(p)) && p != "" && p[|p| - 1] == SOH
  {
    var head := HeadFields(sender, target, msgType, seqNo, body);
    var digits := ChecksumText(Flatten(head));
    var all := AllFields(sender, target, msgType, seqNo, body);
    assert all[..|all| - 1] == head;
    assert FieldBody(("10", digits)) == "10=" + digits;
    FlattenEnds(head);
    assert Flatten(head) + ("10=" + digits) + [SOH] == Sealed(Flatten(head), digits);
  }

  // ----- the round trip

  /** What the encoder's callers supply: no SOH anywhere, no '=' in tags. */
  ghost predicate Encodable(sender: string, target: string, msgType: string, body: seq<Field>) {
    SOH !in sender && SOH !in target && SOH !in msgType && FieldsOk(body)
  }

  const HEADER_TAGS: set<string> := {"8", "9", "35", "49", "56", "34", "52", "10"}

  ghost predicate BodyTagsFree(body: seq<Field>) {
    && (forall i :: 0 <= i < |body| ==> body[i].0 !in HEADER_TAGS)
    && (forall i, j :: 0 <= i < j < |body| ==> body[i].0 != body[j].0)
  }

  lemma DigitsFree(s: string)
    requires AllDigits(s)
    ensures SOH !in s && '=' !in s
  {
  }

  lemma AllFieldsOk(sender: string, target: string, msgType: string, seqNo: nat, body: seq<Field>)
    requires Encodable(sender, target, msgType, body)
    ensures FieldsOk(HeadFields(sender, target, msgType, seqNo, body)) && FieldsOk(AllFields(sender, target, msgType, seqNo, body))
  {
    DigitsFree(NatToString(seqNo));
    DigitsFree(NatToString(|Flatten(MidFields(sender, target, msgType, seqNo, body))|));
    DigitsFree(ChecksumText(Flatten(HeadFields(sender, target, msgType, seqNo, body))));
  }

  lemma {:induction false} MapOfHas(fields: seq<Field>, tag: string)
    ensures tag in MapOf(fields) <==> exists i :: 0 <= i < |fields| && fields[i].0 == tag
  {
    if fields != [] {
      var init := fields[..|fields| - 1];
      MapOfHas(init, tag);
      if exists i :: 0 <= i < |fields| && fields[i].0 == tag {
        var i :| 0 <= i < |fields| && fields[i].0 == tag;
        if i < |init| { assert init[i].0 == tag; }
      }
    }
  }

  /** A field whose tag does not come again later keeps its value. */
  lemma {:induction false} MapOfKeeps(fields: seq<Field>, i: nat)
    requires i < |fields| && forall j :: i < j < |fields| ==> fields[j].0 != fields[i].0
    ensures fields[i].0 in MapOf(fields) && MapOf(fields)[fields[i].0] == fields[i].1
  {
    if i < |fields| - 1 { MapOfKeeps(fields[..|fields| - 1], i); }
  }

  /** Whatever is encoded decodes to the map of all its fields. */
  lemma DecodeEncode(sender: string, target: string, msgType: string, seqNo: nat, body: seq<Field>)
    requires Encodable(sender, target, msgType, body)
    ensures Decode(Encode(sender, target, msgType, seqNo, body)) == Ok(MapOf(AllFields(sender, target, msgType, seqNo, body)))
  {
    var all := AllFields(sender, target, msgType, seqNo, body);
    var p := Flatten(HeadFields(sender, target, msgType, seqNo, body));
    EncodeIsSealed(sender, target, msgType, seqNo, body);
    SealedChecks(p, ChecksumText(p));
    AllFieldsOk(sender, target, msgType, seqNo, body);
    FieldsComeBack(all);
    assert all[2].0 == "35";
    MapOfHas(all, "35");
  }

  lemma DistinctTags(sender: string, target: string, msgType: string, seqNo: nat, body: seq<Field>)
    requires BodyTagsFree(body)
    ensures var all := AllFields(sender, target, msgType, seqNo, body);
      forall i, j :: 0 <= i < j < |all| ==> all[i].0 != all[j].0
  {
    var all := AllFields(sender, target, msgType, seqNo, body);
    var n := |body|;
    assert |all| == n + 8;
    forall k | 7 <= k < n + 7 ensures all[k] == body[k - 7] {}
    assert all[0].0 == "8" && all[1].0 == "9" && all[2].0 == "35" && all[3].0 == "49" && all[4].0 == "56" && all[5].0 == "34" && all[6].0 == "52" && all[n + 7].0 == "10";
  }

  /** Decoding an encoded message returns exactly its fields: header with the body length, body, and the
      trailer's checksum, each under its tag, and nothing else. */
  lemma RoundTrip(sender: string, target: string, msgType: string, seqNo: nat, body: seq<Field>)
    requires Encodable(sender, target, msgType, body) && BodyTagsFree(body)
    ensures var all := AllFields(sender, target, msgType, seqNo, body);
      var r := Decode(Encode(sender, target, msgType, seqNo, body));
      && r.Ok?
      && (forall k :: 0 <= k < |all| ==> all[k].0 in r.value && r.value[all[k].0] == all[k].1)
      && (forall tag :: tag in r.value ==> exists k :: 0 <= k < |all| && all[k].0 == tag)
  {
    var all := AllFields(sender, target, msgType, seqNo, body);
    DecodeEncode(sender, target, msgType, seqNo, body);
    DistinctTags(sender, target, msgType, seqNo, body);
    forall k | 0 <= k < |all| ensures all[k].0 in MapOf(all) && MapOf(all)[all[k].0] == all[k].1 { MapOfKeeps(all, k); }
    forall tag ensures tag in MapOf(all) <==> exists k :: 0 <= k < |all| && all[k].0 == tag { MapOfHas(all, tag); }
  }

  // ----- tampering

  lemma {:induction false} ByteSumChange(s: string, i: nat, b: char)
    requires i < |s|
    ensures ByteSum(s[i := b]) == ByteSum(s) - s[i] as int + b as int
  {
    var n := |s| - 1;
    var t := s[i := b];
    if i == n {
      assert t[..n] == s[..n];
    } else {
      assert t[..n] == s[..n][i := b];
      ByteSumChange(s[..n], i, b);
    }
  }

  lemma ChecksumChanges(s: string, i: nat, b: char)
    requires i < |s| && s[i] as int < 256 && b as int < 256 && b != s[i]
    ensures ChecksumText(s[i := b]) != ChecksumText(s)
  {
    ByteSumChange(s, i, b);
    assert Pow10(3) == 1000;
    assert DigitsValue(ChecksumText(s)) == Checksum(s) && DigitsValue(ChecksumText(s[i := b])) == Checksum(s[i := b]);
    RemaindersDiffer(ByteSum(s), ByteSum(s[i := b]));
  }

  lemma RemaindersDiffer(a: nat, b: nat)
    requires a != b && -256 < a - b < 256
    ensures a % 256 != b % 256
  {
  }

  /** Every field's text is preceded by the start or an SOH and holds an '=': no trailer hides in fields
      whose tags are not 10. */
  ghost predicate NoTrailerTag(fields: seq<Field>) { forall i :: 0 <= i < |fields| ==> fields[i].0 != "10" }

  lemma FieldStart(f: Field, rest: string)
    requires FieldOk(f) && f.0 != "10"
    ensures var t := FieldBody(f) + [SOH] + rest; |t| >= 3 ==> !(t[0] == '1' && t[1] == '0' && t[2] == '=')
  {
    var t := FieldBody(f) + [SOH] + rest;
    assert t[|f.0|] == '=';
    assert forall k :: 0 <= k < |f.0| ==> t[k] == f.0[k];
    assert f.0 == "10" <==> |f.0| == 2 && f.0[0] == '1' && f.0[1] == '0';
  }

  lemma {:induction false} NoTrailerInside(fields: seq<Field>, rest: string, q: nat)
    requires FieldsOk(fields) && NoTrailerTag(fields) && q + 1 < |Flatten(fields)|
    ensures !TrailerAt(Flatten(fields) + rest, q)
  {
    var init, last := fields[..|fields| - 1], fields[|fields| - 1];
    var tail := FieldBody(last) + [SOH] + rest;
    var n := |Flatten(init)|;
    assert Flatten(fields) + rest == Flatten(init) + tail;
    if q + 1 < n {
      NoTrailerInside(init, tail, q);
    } else if q + 1 == n {
      FieldStart(last, rest);
      assert (Flatten(init) + tail)[n..] == tail;
    } else {
      assert (Flatten(init) + tail)[q] == FieldBody(last)[q - n];
    }
  }

  lemma HeadHasNoTrailerTag(sender: string, target: string, msgType: string, seqNo: nat, body: seq<Field>)
    requires BodyTagsFree(body)
    ensures NoTrailerTag(HeadFields(sender, target, msgType, seqNo, body))
  {
    var head := HeadFields(sender, target, msgType, seqNo, body);
    assert forall k :: 7 <= k < |head| ==> head[k] == body[k - 7];
  }

  /** A changed byte before the separator in front of the trailer is caught by the checksum. */
  lemma TamperedByteIsCaught(p: string, digits: string, i: nat, b: char)
    requires i + 1 < |p| && p[|p| - 1] == SOH && digits == ChecksumText(p)
    requires p[i] as int < 256 && b as int < 256 && b != p[i]
    ensures Decode(Sealed(p, digits)[i := b]) == Err(ChecksumMismatch)
  {
    var t := p[i := b];
    assert Sealed(p, digits)[i := b] == Sealed(t, digits);
    SealedChecks(t, digits);
    ChecksumChanges(p, i, b);
  }

  /** The last field of the message once the separator behind it is overwritten: it swallows the trailer. */
  function Swallowed(last: Field, b: char, digits: string): Field { (last.0, last.1 + [b] + "10=" + digits) }

  lemma SwallowedFlattens(init: seq<Field>, last: Field, digits: string, b: char)
    ensures var p := Flatten(init + [last]);
      p != "" && Sealed(p, digits)[|p| - 1 := b] == Flatten(init + [Swallowed(last, b, digits)])
  {
    assert (init + [last])[..|init|] == init;
    var f := Swallowed(last, b, digits);
    assert (init + [f])[..|init|] == init;
    var p := Flatten(init + [last]);
    assert FieldBody(f) == FieldBody(last) + [b] + "10=" + digits;
    assert Sealed(p, digits)[|p| - 1 := b] == Flatten(init) + FieldBody(f) + [SOH];
  }

  /** Overwriting that separator hides the trailer, so the message is taken unchecked, its last field
      running on into the trailer. */
  lemma TamperedSeparatorIsMissed(init: seq<Field>, last: Field, digits: string, b: char)
    requires FieldsOk(init + [last]) && NoTrailerTag(init + [last]) && AllDigits(digits) && b != SOH
    requires exists k :: 0 <= k < |init| && init[k].0 == "35"
    ensures var p := Flatten(init + [last]);
      p != "" && Decode(Sealed(p, digits)[|p| - 1 := b]) == Ok(MapOf(init + [Swallowed(last, b, digits)]))
  {
    var fields := init + [Swallowed(last, b, digits)];
    var raw := Flatten(fields);
    SwallowedFlattens(init, last, digits, b);
    DigitsFree(digits);
    assert FieldOk(last) by { assert (init + [last])[|init|] == last; }
    assert FieldsOk(fields) by { assert forall k :: 0 <= k < |init| ==> fields[k] == (init + [last])[k]; }
    assert NoTrailerTag(fields) by { assert forall k :: 0 <= k <= |init| ==> fields[k].0 == (init + [last])[k].0; }
    forall q: nat | q < |raw| ensures !TrailerAt(raw, q) {
      if q + 1 < |raw| {
        NoTrailerInside(fields, "", q);
        assert raw + "" == raw;
      }
    }
    FieldsComeBack(fields);
    var k :| 0 <= k < |init| && init[k].0 == "35";
    assert fields[k].0 == "35";
    MapOfHas(fields, "35");
    assert Swallowed(last, b, digits).1 != "" && raw != "";
  }

  lemma SeparatorMissed(head: seq<Field>, digits: string, b: char)
    requires FieldsOk(head) && NoTrailerTag(head) && |head| > 3 && head[2].0 == "35" && AllDigits(digits) && b != SOH
    ensures var p := Flatten(head); p != "" && Decode(Sealed(p, digits)[|p| - 1 := b]).Ok?
  {
    var init, last := head[..|head| - 1], head[|head| - 1];
    assert init + [last] == head;
    assert init[2].0 == "35";
    TamperedSeparatorIsMissed(init, last, digits, b);
  }

  /** Changing one byte of an encoded message before its trailer is refused, except exactly when the
      byte is the separator in front of the trailer. */
  lemma TamperingCaughtIff(sender: string, target: string, msgType: string, seqNo: nat, body: seq<Field>, i: nat, b: char)
    requires Encodable(sender, target, msgType, body) && BodyTagsFree(body)
    requires var p := Flatten(HeadFields(sender, target, msgType, seqNo, body));
      i < |p| && p[i] as int < 256 && b as int < 256 && b != p[i]
    ensures var p := Flatten(HeadFields(sender, target, msgType, seqNo, body));
      var raw := Encode(sender, target, msgType, seqNo, body);
      i < |raw| && (Decode(raw[i := b]) == Err(ChecksumMismatch) <==> i != |p| - 1)
  {
    var head := HeadFields(sender, target, msgType, seqNo, body);
    var p := Flatten(head);
    EncodeIsSealed(sender, target, msgType, seqNo, body);
    if i + 1 < |p| {
      TamperedByteIsCaught(p, ChecksumText(p), i, b);
    } else {
      AllFieldsOk(sender, target, msgType, seqNo, body);
      HeadHasNoTrailerTag(sender, target, msgType, seqNo, body);
      assert head[2].0 == "35";
      SeparatorMissed(head, ChecksumText(p), b);
    }
  }

  // ----- framing

  predicate FrameAt(buf: string, i: nat) { i + 7 < |buf| && TrailerAt(buf, i) && buf[i + 7] == SOH }

  /** The length of the first complete message in the buffer. */
  method CompleteMessageLen(buf: string) returns (r: Option<nat>)
    ensures match r
            case Some(n) => 8 <= n <= |buf| && FrameAt(buf, n - 8) && forall i: nat :: i < n - 8 ==> !FrameAt(buf, i)
            case None => forall i: nat :: !FrameAt(buf, i)
  {
    var i := 0;
    while i + 5 < |buf|
      invariant forall j: nat :: j < i ==> !FrameAt(buf, j)
    {
      if buf[i] == SOH && buf[i + 1] == '1' && buf[i + 2] == '0' && buf[i + 3] == '=' {
        var cs := i + 4;
        if cs + 3 < |buf| && buf[cs + 3] == SOH { return Some(cs + 4); }
      }
      i := i + 1;
    }
    return None;
  }

  /** A text that ends in a separator, sealed by three digits, frames there and nowhere before. */
  lemma SealedFrames(p: string, digits: string, rest: string, i: nat)
    requires p != "" && p[|p| - 1] == SOH && |digits| == 3
    requires i + 1 < |p| ==> !TrailerAt(p + ("10=" + digits + [SOH] + rest), i)
    ensures var w := Sealed(p, digits);
      && |w| == |p| + 7 && FrameAt(w + rest, |w| - 8) && (i < |w| - 8 ==> !FrameAt(w + rest, i))
  {
    var w := Sealed(p, digits);
    assert w + rest == p + ("10=" + digits + [SOH] + rest);
  }

  lemma NoPrefixFrames(p: string, digits: string, n: nat, i: nat)
    requires p != "" && |digits| == 3 && n < |Sealed(p, digits)|
    requires i + 1 < |p| ==> !TrailerAt(Sealed(p, digits), i)
    ensures !FrameAt(Sealed(p, digits)[..n], i)
  {
    var w := Sealed(p, digits);
    if i + 7 < n { assert w[..n][i] == w[i] && w[..n][i + 1] == w[i + 1] && w[..n][i + 2] == w[i + 2] && w[..n][i + 3] == w[i + 3]; }
  }

  /** An encoded message frames itself: whatever follows it the first frame is the message, and no
      proper prefix of it holds a frame. */
  lemma FramesExactly(sender: string, target: string, msgType: string, seqNo: nat, body: seq<Field>, rest: string, i: nat)
    requires Encodable(sender, target, msgType, body) && BodyTagsFree(body)
    ensures var w := Encode(sender, target, msgType, seqNo, body);
      && |w| >= 8 && FrameAt(w + rest, |w| - 8)
      && (i < |w| - 8 ==> !FrameAt(w + rest, i))
      && (forall n: nat :: n < |w| ==> !FrameAt(w[..n], i))
  {
    var head := HeadFields(sender, target, msgType, seqNo, body);
    var p := Flatten(head);
    var digits := ChecksumText(p);
    EncodeIsSealed(sender, target, msgType, seqNo, body);
    AllFieldsOk(sender, target, msgType, seqNo, body);
    HeadHasNoTrailerTag(sender, target, msgType, seqNo, body);
    if i + 1 < |p| {
      NoTrailerInside(head, "10=" + digits + [SOH] + rest, i);
      NoTrailerInside(head, "10=" + digits + [SOH], i);
      assert Sealed(p, digits) == p + ("10=" + digits + [SOH]);
    }
    SealedFrames(p, digits, rest, i);
    forall n: nat | n < |Sealed(p, digits)| ensures !FrameAt(Sealed(p, digits)[..n], i) { NoPrefixFrames(p, digits, n, i); }
  }

  // ----- the codec as loops

  method EncodeFix(sender: string, target: string, msgType: string, seqNo: nat, body: seq<Field>) returns (wire: string)
    ensures wire == Encode(sender, target, msgType, seqNo, body)
  {
    ghost var fields := MidFields(sender, target, msgType, seqNo, body);
    var start := [("35", msgType), ("49", sender), ("56", target), ("34", NatToString(seqNo)), ("52", SENDING_TIME)];
    var mid := Flatten(start);
    var i := 0;
    assert start + body[..0] == start;
    while i < |body|
      invariant 0 <= i <= |body|
      invariant mid == Flatten(start + body[..i])
    {
      assert (start + body[..i + 1])[..|start| + i] == start + body[..i];
      mid := mid + body[i].0 + "=" + body[i].1 + [SOH];
      assert mid == Flatten(start + body[..i]) + FieldBody(body[i]) + [SOH];
      i := i + 1;
    }
    assert start + body[..i] == fields;
    var head := [("8", BEGIN_STRING), ("9", NatToString(|mid|))];
    var message := Flatten(head) + mid;
    FlattenAppends(head, fields);
    assert head + fields == HeadFields(sender, target, msgType, seqNo, body);
    var sum := FixChecksum(message);
    assert Pow10(3) == 1000;
    wire := message + "10=" + Padded(sum, 3) + [SOH];
    EncodeIsSealed(sender, target, msgType, seqNo, body);
  }

  lemma WrappingAdds(a: nat, b: nat)
    ensures (a % 256 + b % 256) % 256 == (a + b) % 256
  {
    var q, r := a / 256, b / 256;
    assert a == 256 * q + a % 256 && b == 256 * r + b % 256;
  }

  lemma ByteSumSnoc(s: string, i: nat)
    requires i < |s|
    ensures ByteSum(s[..i + 1]) == ByteSum(s[..i]) + s[i] as int
  {
    assert s[..i + 1][..i] == s[..i];
  }

  /** Byte by byte, wrapping at 256. */
  method FixChecksum(s: string) returns (sum: nat)
    ensures sum == Checksum(s)
  {
    sum := 0;
    var i := 0;
    while i < |s|
      invariant 0 <= i <= |s| && sum == ByteSum(s[..i]) % 256
    {
      ByteSumSnoc(s, i);
      WrappingAdds(ByteSum(s[..i]), s[i] as int);
      sum := (sum + s[i] as int % 256) % 256;
      i := i + 1;
    }
    assert s[..i] == s;
  }

  method DecodeFix(raw: string) returns (r: Result<map<string, string>, FixError>)
    ensures r == Decode(raw)
  {
    if raw == "" { return Err(EmptyMessage); }
    if !ChecksumHolds(raw) { return Err(ChecksumMismatch); }
    var m: map<string, string> := map[];
    var texts := SplitOn(raw);
    var i := 0;
    while i < |texts|
      invariant 0 <= i <= |texts| && m == TagMap(texts[..i])
    {
      assert texts[..i + 1][..i] == texts[..i];
      m := Insert(m, texts[i]);
      i := i + 1;
    }
    assert texts[..i] == texts;
    if "35" !in m { return Err(MissingTag("35")); }
    return Ok(m);
  }

  // ----- possible duplicates

  function ParseU64(s: string): Option<nat> { ParseNat(if s != "" && s[0] == '+' then s[1..] else s, U64_MAX) }

  const REWRITTEN_TAGS: set<string> := {"8", "9", "35", "49", "56", "34", "52", "10", "43"}

  /** The parts of a decoded message that a retransmission needs. */
  function Resendable(m: map<string, string>): Result<nat, FixError> {
    if "35" !in m then Err(MissingTag("35"))
    else if "49" !in m then Err(MissingTag("49"))
    else if "56" !in m then Err(MissingTag("56"))
    else if "34" !in m || ParseU64(m["34"]).None? then Err(MissingTag("34"))
    else Ok(ParseU64(m["34"]).value)
  }

  ghost predicate MapOk(m: map<string, string>) {
    forall tag :: tag in m ==> '=' !in tag && SOH !in tag && SOH !in m[tag]
  }

  lemma {:induction false} SplitIsFree(s: string)
    ensures forall i :: 0 <= i < |SplitOn(s)| ==> SOH !in SplitOn(s)[i]
    decreases |s|
  {
    var i := IndexOf(s, SOH);
    if i < |s| { SplitIsFree(s[i + 1..]); }
  }

  lemma {:induction false} TagMapOk(texts: seq<string>)
    requires forall i :: 0 <= i < |texts| ==> SOH !in texts[i]
    ensures MapOk(TagMap(texts))
  {
    if texts != [] { TagMapOk(texts[..|texts| - 1]); }
  }

  /** What is sent again for a message: the same tags with tag 43 set, and length, checksum, begin string
      and sending time the encoder's own. */
  ghost predicate PossDupOf(m: map<string, string>, wire: string) {
    && Decode(wire).Ok? && Resendable(m).Ok?
    && var n := Decode(wire).value;
       && n.Keys == m.Keys + {"8", "9", "10", "43", "52"}
       && n["43"] == "Y" && n["8"] == BEGIN_STRING && n["52"] == SENDING_TIME && n["34"] == NatToString(Resendable(m).value)
       && forall tag :: tag in m && tag !in {"8", "9", "10", "34", "43", "52"} ==> n[tag] == m[tag]
  }

  ghost predicate HasTag(body: seq<Field>, tag: string) { exists i :: 1 <= i < |body| && body[i].0 == tag }

  /** Tags compare as text, character by character. */
  predicate TextLess(a: string, b: string) {
    b != [] && (a == [] || a[0] < b[0] || (a[0] == b[0] && TextLess(a[1..], b[1..])))
  }

  lemma {:induction false} TextLessTotal(a: string, b: string)
    ensures a == b || TextLess(a, b) || TextLess(b, a)
    decreases |a|
  {
    if a != [] && b != [] && a[0] == b[0] {
      TextLessTotal(a[1..], b[1..]);
      assert a == [a[0]] + a[1..] && b == [b[0]] + b[1..];
    }
  }

  lemma {:induction false} TextLessChains(a: string, b: string, c: string)
    requires TextLess(a, b) && TextLess(b, c)
    ensures TextLess(a, c)
    decreases |a|
  {
    if a != [] && a[0] == b[0] == c[0] { TextLessChains(a[1..], b[1..], c[1..]); }
  }

  ghost predicate BelowAll(tag: string, tags: set<string>) { forall t :: t in tags ==> TextLess(tag, t) }

  method LeastTag(tags: set<string>) returns (least: string)
    requires tags != {}
    ensures least in tags && BelowAll(least, tags - {least})
  {
    least :| least in tags;
    var rest := tags - {least};
    while rest != {}
      invariant rest <= tags && least in tags - rest && BelowAll(least, tags - rest - {least})
      decreases |rest|
    {
      var tag :| tag in rest;
      TextLessTotal(least, tag);
      if TextLess(tag, least) {
        forall t | t in tags - (rest - {tag}) - {tag} ensures TextLess(tag, t) {
          if t != least { TextLessChains(tag, least, t); }
        }
        least := tag;
      }
      rest := rest - {tag};
    }
  }

  /** Every tag of the body after the first is below all of these. */
  ghost predicate BodyBelow(body: seq<Field>, tags: set<string>) {
    forall i :: 1 <= i < |body| ==> BelowAll(body[i].0, tags)
  }

  predicate Ascending(body: seq<Field>) {
    forall i, j :: 1 <= i < j < |body| ==> TextLess(body[i].0, body[j].0)
  }

  /** The body of a retransmission: tag 43, then every other tag of the message once, ascending. */
  ghost predicate ResendBody(m: map<string, string>, body: seq<Field>) {
    && body != [] && body[0] == ("43", "Y")
    && (forall i :: 1 <= i < |body| ==> body[i].0 in m && body[i].0 !in REWRITTEN_TAGS && body[i].1 == m[body[i].0])
    && (forall i, j :: 0 <= i < j < |body| ==> body[i].0 != body[j].0)
    && (forall tag :: tag in m && tag !in REWRITTEN_TAGS ==> HasTag(body, tag))
    && Ascending(body)
  }

  /** The wire is the encoding of such a body under the message's own routing and number. */
  ghost predicate ResendOf(m: map<string, string>, wire: string) {
    Resendable(m).Ok? &&
    exists body :: ResendBody(m, body) && wire == Encode(m["49"], m["56"], m["35"], Resendable(m).value, body)
  }

  lemma ResendBodyOk(m: map<string, string>, body: seq<Field>)
    requires ResendBody(m, body) && MapOk(m) && Resendable(m).Ok?
    ensures Encodable(m["49"], m["56"], m["35"], body) && BodyTagsFree(body)
  {
  }

  lemma FieldsAt(sender: string, target: string, msgType: string, seqNo: nat, body: seq<Field>)
    ensures var all := AllFields(sender, target, msgType, seqNo, body);
      && |all| == |body| + 8
      && all[0] == ("8", BEGIN_STRING) && all[1].0 == "9" && all[2] == ("35", msgType) && all[3] == ("49", sender)
      && all[4] == ("56", target) && all[5] == ("34", NatToString(seqNo)) && all[6] == ("52", SENDING_TIME) && all[|body| + 7].0 == "10"
      && (forall i :: 0 <= i < |body| ==> all[i + 7] == body[i])
  {
  }

  lemma Arrives(sender: string, target: string, msgType: string, seqNo: nat, body: seq<Field>, k: nat, f: Field)
    requires Encodable(sender, target, msgType, body) && BodyTagsFree(body)
    requires k < |AllFields(sender, target, msgType, seqNo, body)| && AllFields(sender, target, msgType, seqNo, body)[k] == f
    ensures var r := Decode(Encode(sender, target, msgType, seqNo, body)); r.Ok? && f.0 in r.value && r.value[f.0] == f.1
  {
    RoundTrip(sender, target, msgType, seqNo, body);
  }

  lemma EnvelopeArrives(sender: string, target: string, msgType: string, seqNo: nat, body: seq<Field>)
    requires Encodable(sender, target, msgType, body) && BodyTagsFree(body)
    ensures var r := Decode(Encode(sender, target, msgType, seqNo, body));
      && r.Ok? && "8" in r.value && "9" in r.value && "52" in r.value && "10" in r.value
      && r.value["8"] == BEGIN_STRING && r.value["52"] == SENDING_TIME
  {
    var all := AllFields(sender, target, msgType, seqNo, body);
    FieldsAt(sender, target, msgType, seqNo, body);
    Arrives(sender, target, msgType, seqNo, body, 0, ("8", BEGIN_STRING));
    Arrives(sender, target, msgType, seqNo, body, 1, all[1]);
    Arrives(sender, target, msgType, seqNo, body, 6, ("52", SENDING_TIME));
    Arrives(sender, target, msgType, seqNo, body, |body| + 7, all[|body| + 7]);
  }

  lemma RoutingArrives(sender: string, target: string, msgType: string, seqNo: nat, body: seq<Field>)
    requires Encodable(sender, target, msgType, body) && BodyTagsFree(body)
    ensures var r := Decode(Encode(sender, target, msgType, seqNo, body));
      && r.Ok? && "35" in r.value && "49" in r.value && "56" in r.value && "34" in r.value
      && r.value["34"] == NatToString(seqNo) && r.value["35"] == msgType && r.value["49"] == sender && r.value["56"] == target
  {
    FieldsAt(sender, target, msgType, seqNo, body);
    Arrives(sender, target, msgType, seqNo, body, 2, ("35", msgType));
    Arrives(sender, target, msgType, seqNo, body, 3, ("49", sender));
    Arrives(sender, target, msgType, seqNo, body, 4, ("56", target));
    Arrives(sender, target, msgType, seqNo, body, 5, ("34", NatToString(seqNo)));
  }

  lemma BodyArrives(sender: string, target: string, msgType: string, seqNo: nat, body: seq<Field>, i: nat)
    requires Encodable(sender, target, msgType, body) && BodyTagsFree(body) && i < |body|
    ensures var r := Decode(Encode(sender, target, msgType, seqNo, body));
      r.Ok? && body[i].0 in r.value && r.value[body[i].0] == body[i].1
  {
    FieldsAt(sender, target, msgType, seqNo, body);
    Arrives(sender, target, msgType, seqNo, body, i + 7, body[i]);
  }

  lemma NothingElseArrives(sender: string, target: string, msgType: string, seqNo: nat, body: seq<Field>, tag: string)
    requires Encodable(sender, target, msgType, body) && BodyTagsFree(body)
    ensures var r := Decode(Encode(sender, target, msgType, seqNo, body));
      r.Ok? && (tag in r.value ==> tag in HEADER_TAGS || exists i :: 0 <= i < |body| && body[i].0 == tag)
  {
    RoundTrip(sender, target, msgType, seqNo, body);
    FieldsAt(sender, target, msgType, seqNo, body);
    var all := AllFields(sender, target, msgType, seqNo, body);
    if tag in Decode(Encode(sender, target, msgType, seqNo, body)).value {
      var k :| 0 <= k < |all| && all[k].0 == tag;
      if 7 <= k < |body| + 7 { assert all[(k - 7) + 7] == body[k - 7]; }
    }
  }

  lemma ResendHeader(m: map<string, string>, body: seq<Field>, seqNo: nat)
    requires ResendBody(m, body) && MapOk(m) && Resendable(m) == Ok(seqNo)
    ensures var r := Decode(Encode(m["49"], m["56"], m["35"], seqNo, body));
      && r.Ok? && HEADER_TAGS + {"43"} <= r.value.Keys
      && r.value["8"] == BEGIN_STRING && r.value["52"] == SENDING_TIME && r.value["34"] == NatToString(seqNo)
      && r.value["35"] == m["35"] && r.value["49"] == m["49"] && r.value["56"] == m["56"] && r.value["43"] == "Y"
  {
    ResendBodyOk(m, body);
    EnvelopeArrives(m["49"], m["56"], m["35"], seqNo, body);
    RoutingArrives(m["49"], m["56"], m["35"], seqNo, body);
    BodyArrives(m["49"], m["56"], m["35"], seqNo, body, 0);
  }

  lemma ResendKeeps(m: map<string, string>, body: seq<Field>, seqNo: nat, tag: string)
    requires ResendBody(m, body) && MapOk(m) && Resendable(m) == Ok(seqNo)
    ensures var r := Decode(Encode(m["49"], m["56"], m["35"], seqNo, body));
      && r.Ok?
      && (tag in m && tag !in REWRITTEN_TAGS ==> tag in r.value && r.value[tag] == m[tag])
      && (tag in r.value ==> tag in REWRITTEN_TAGS || tag == "52" || tag in m)
  {
    ResendBodyOk(m, body);
    if tag in m && tag !in REWRITTEN_TAGS {
      var i :| 1 <= i < |body| && body[i].0 == tag;
      BodyArrives(m["49"], m["56"], m["35"], seqNo, body, i);
    }
    NothingElseArrives(m["49"], m["56"], m["35"], seqNo, body, tag);
  }

  lemma ResendIsPossDup(m: map<string, string>, body: seq<Field>, seqNo: nat)
    requires ResendBody(m, body) && MapOk(m) && Resendable(m) == Ok(seqNo)
    ensures PossDupOf(m, Encode(m["49"], m["56"], m["35"], seqNo, body))
  {
    ResendHeader(m, body, seqNo);
    var n := Decode(Encode(m["49"], m["56"], m["35"], seqNo, body)).value;
    forall tag ensures tag in n <==> tag in m.Keys + {"8", "9", "10", "43", "52"} { ResendKeeps(m, body, seqNo, tag); }
    forall tag | tag in m && tag !in {"8", "9", "10", "34", "43", "52"} ensures n[tag] == m[tag] { ResendKeeps(m, body, seqNo, tag); }
  }

  /** One more tag, below all that are left. */
  lemma BodyGrows(m: map<string, string>, body: seq<Field>, more: seq<Field>, todo: set<string>, tag: string)
    requires BodySoFar(m, body, todo) && tag in todo && BelowAll(tag, todo - {tag}) && more == body + [(tag, m[tag])]
    ensures BodySoFar(m, more, todo - {tag})
  {
    forall i, j | 0 <= i < j < |more| ensures more[i].0 != more[j].0 && (i >= 1 ==> TextLess(more[i].0, more[j].0)) {
      if j == |body| && i >= 1 { assert BelowAll(body[i].0, todo); }
    }
    assert more[|body|].0 == tag;
    forall t | HasTag(body, t) ensures HasTag(more, t) {
      var i :| 1 <= i < |body| && body[i].0 == t;
      assert more[i].0 == t;
    }
    forall i | 1 <= i < |more| ensures BelowAll(more[i].0, todo - {tag}) {
      if i < |body| { assert BelowAll(body[i].0, todo); }
    }
  }

  /** The body with every tag but those still to do. */
  ghost predicate BodySoFar(m: map<string, string>, body: seq<Field>, todo: set<string>) {
    && todo <= m.Keys - REWRITTEN_TAGS && body != [] && body[0] == ("43", "Y")
    && (forall i :: 1 <= i < |body| ==> body[i].0 in m.Keys - REWRITTEN_TAGS - todo && body[i].1 == m[body[i].0])
    && (forall i, j :: 0 <= i < j < |body| ==> body[i].0 != body[j].0)
    && (forall tag :: tag in m.Keys - REWRITTEN_TAGS - todo ==> HasTag(body, tag))
    && Ascending(body) && BodyBelow(body, todo)
  }

  lemma BodyDone(m: map<string, string>, body: seq<Field>)
    requires BodySoFar(m, body, {})
    ensures ResendBody(m, body)
  {
    forall tag | tag in m && tag !in REWRITTEN_TAGS ensures HasTag(body, tag) {
      assert tag in m.Keys - REWRITTEN_TAGS - {};
    }
  }

  method BodyOf(m: map<string, string>) returns (body: seq<Field>)
    ensures ResendBody(m, body)
  {
    body := [("43", "Y")];
    var todo := m.Keys - REWRITTEN_TAGS;
    while todo != {}
      invariant BodySoFar(m, body, todo)
      decreases |todo|
    {
      var tag := LeastTag(todo);
      BodyGrows(m, body, body + [(tag, m[tag])], todo, tag);
      body := body + [(tag, m[tag])];
      todo := todo - {tag};
    }
    BodyDone(m, body);
  }

  /** Marks a stored message as a possible duplicate; any decodable message with the session tags works. */
  method WithPossDup(raw: string) returns (r: Result<string, FixError>)
    ensures match Decode(raw)
            case Err(e) => r == Err(e)
            case Ok(m) => (match Resendable(m)
                           case Err(e) => r == Err(e)
                           case Ok(_) => r.Ok? && PossDupOf(m, r.value) && ResendOf(m, r.value))
  {
    var decoded := DecodeFix(raw);
    if decoded.Err? { return Err(decoded.error); }
    var m := decoded.value;
    var seqNo := Resendable(m);
    if seqNo.Err? { return Err(seqNo.error); }
    SplitIsFree(raw);
    TagMapOk(SplitOn(raw));
    var body := BodyOf(m);
    ResendIsPossDup(m, body, seqNo.value);
    var wire := EncodeFix(m["49"], m["56"], m["35"], seqNo.value, body);
    return Ok(wire);
  }
}
