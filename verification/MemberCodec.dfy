/** The text form of a delayed-set member, "uuid:channel:priority", and its parser. */
module MemberCodec {
  import opened Domain

  // ---------------------------------------------------------------- UUID text

  function HexDigit(n: nat): (c: char)
    requires n < 16
    ensures c == "0123456789abcdef"[n] && c != ':'
    ensures HexValue(c) == Some(n)
  {
    if n < 10 then '0' + n as char else 'a' + (n - 10) as char
  }

  function HexValue(c: char): (v: Option<nat>)
    ensures v.Some? ==> v.value < 16
  {
    if '0' <= c <= '9' then Some((c - '0') as nat)
    else if 'a' <= c <= 'f' then Some((c - 'a') as nat + 10)
    else if 'A' <= c <= 'F' then Some((c - 'A') as nat + 10)
    else None
  }

  function Pow16(n: nat): (p: nat)
    ensures p > 0
  {
    if n == 0 then 1 else 16 * Pow16(n - 1)
  }

  /** The last n hexadecimal digits of u. */
  function Hex(u: nat, n: nat): (text: string)
    ensures |text| == n && ':' !in text
  {
    if n == 0 then "" else Hex(u / 16, n - 1) + [HexDigit(u % 16)]
  }

  function HexNat(text: string): (v: Option<nat>)
    ensures v.Some? ==> v.value < Pow16(|text|)
  {
    if text == "" then Some(0)
    else
      var high := HexNat(text[..|text| - 1]);
      var low := HexValue(text[|text| - 1]);
      if high.Some? && low.Some? then Some(16 * high.value + low.value) else None
  }

  lemma {:induction false} HexRoundTrip(u: nat, n: nat)
    requires u < Pow16(n)
    ensures HexNat(Hex(u, n)) == Some(u)
  {
    if n > 0 {
      var text := Hex(u, n);
      assert text[..n - 1] == Hex(u / 16, n - 1);
      HexRoundTrip(u / 16, n - 1);
    }
  }

  lemma UuidRange()
    ensures Pow16(32) == 0x1_0000_0000_0000_0000_0000_0000_0000_0000
  {
    assert Pow16(8) == 0x1_0000_0000;
    assert Pow16(16) == 0x1_0000_0000_0000_0000;
    assert Pow16(24) == 0x1_0000_0000_0000_0000_0000_0000;
  }

  /** uuid.UUID.String: thirty-two digits in groups of 8-4-4-4-12. */
  function UuidText(u: Uuid): (text: string)
    ensures |text| == 36 && ':' !in text
  {
    var h := Hex(u, 32);
    h[..8] + "-" + h[8..12] + "-" + h[12..16] + "-" + h[16..20] + "-" + h[20..]
  }

  /** uuid.Parse on the canonical form. */
  function ParseUuid(text: string): Option<Uuid> {
    if |text| == 36 && text[8] == '-' && text[13] == '-' && text[18] == '-' && text[23] == '-' then
      var h := text[..8] + text[9..13] + text[14..18] + text[19..23] + text[24..];
      var v := HexNat(h);
      UuidRange();
      if v.Some? then Some(v.value) else None
    else
      None
  }

  lemma UuidRoundTrip(u: Uuid)
    ensures ParseUuid(UuidText(u)) == Some(u)
  {
    hide Hex, HexNat;
    var h := Hex(u, 32);
    Undashed(h, UuidText(u));
    UuidRange();
    HexRoundTrip(u, 32);
  }

  lemma Undashed(h: string, text: string)
    requires |h| == 32 && text == h[..8] + "-" + h[8..12] + "-" + h[12..16] + "-" + h[16..20] + "-" + h[20..]
    ensures |text| == 36 && text[8] == text[13] == text[18] == text[23] == '-'
    ensures text[..8] + text[9..13] + text[14..18] + text[19..23] + text[24..] == h
  {
    assert text[..8] == h[..8] && text[9..13] == h[8..12] && text[14..18] == h[12..16];
    assert text[19..23] == h[16..20] && text[24..] == h[20..];
    assert h == h[..8] + h[8..12] + h[12..16] + h[16..20] + h[20..];
  }

  // ---------------------------------------------------------------- parseMember

  function FirstColon(s: string): (i: nat)
    ensures i <= |s| && ':' !in s[..i]
    ensures i < |s| ==> s[i] == ':'
  {
    if s == "" || s[0] == ':' then 0
    else
      var j := FirstColon(s[1..]);
      assert s[..1 + j] == [s[0]] + s[1..][..j];
      1 + j
  }

  lemma {:induction false} FirstColonUnique(s: string, i: nat)
    requires i <= |s| && ':' !in s[..i]
    requires i < |s| ==> s[i] == ':'
    ensures FirstColon(s) == i
  {
    var j := FirstColon(s);
    assert forall k | 0 <= k < j :: s[..j][k] == s[k];
    assert forall k | 0 <= k < i :: s[..i][k] == s[k];
  }

  /** What parseMember computes: the text before the first colon, between the first two, and the non-empty rest. */
  function Parts(s: string): Option<seq<string>> {
    var i := FirstColon(s);
    if i == |s| then None
    else
      var rest := s[i + 1..];
      var j := FirstColon(rest);
      if j >= |rest| - 1 then None
      else Some([s[..i], rest[..j], rest[j + 1..]])
  }

  /** What the scan has found after |parts| colons, the next part starting at start. */
  predicate Scanned(s: string, parts: seq<string>, start: nat) {
    var i := FirstColon(s);
    if parts == [] then start == 0
    else if |parts| == 1 then i < |s| && parts == [s[..i]] && start == i + 1
    else
      && i < |s|
      && var rest := s[i + 1..];
         var j := FirstColon(rest);
         j < |rest| && parts == [s[..i], rest[..j]] && start == i + j + 2
  }

  method ParseMember(s: string) returns (r: Option<seq<string>>)
    ensures r == Parts(s)
  {
    hide Scanned, Parts, FirstColon;
    var parts: seq<string> := [];
    var start, count, i := 0, 0, 0;
    StartScan(s);
    while i < |s| && count < 2
      invariant 0 <= start <= i <= |s| && ':' !in s[start..i]
      invariant count == |parts| <= 2 && Scanned(s, parts, start)
    {
      if s[i] == ':' {
        ScanColon(s, parts, start, i);
        parts := parts + [s[start..i]];
        start := i + 1;
        count := count + 1;
      }
      i := i + 1;
    }
    ScanEnd(s, parts, start);
    if start < |s| {
      parts := parts + [s[start..]];
    }
    if |parts| != 3 {
      return None;
    }
    return Some(parts);
  }

  lemma StartScan(s: string)
    ensures Scanned(s, [], 0)
  {
  }

  lemma ScanColon(s: string, parts: seq<string>, start: nat, i: nat)
    requires |parts| < 2 && Scanned(s, parts, start) && start <= i < |s| && s[i] == ':' && ':' !in s[start..i]
    ensures Scanned(s, parts + [s[start..i]], i + 1)
  {
    FoundColon(s, start, i);
  }

  lemma ScanEnd(s: string, parts: seq<string>, start: nat)
    requires |parts| <= 2 && Scanned(s, parts, start) && start <= |s| && (|parts| < 2 ==> ':' !in s[start..])
    ensures Parts(s) == if |parts| == 2 && start < |s| then Some(parts + [s[start..]]) else None
  {
    if |parts| < 2 {
      NoColon(s, start);
    } else {
      var rest := s[FirstColon(s) + 1..];
      assert rest[FirstColon(rest) + 1..] == s[start..];
      assert parts + [s[start..]] == [s[..FirstColon(s)], rest[..FirstColon(rest)], s[start..]];
    }
  }

  lemma FoundColon(s: string, start: nat, i: nat)
    requires start <= i < |s| && s[i] == ':' && ':' !in s[start..i]
    ensures FirstColon(s[start..]) == i - start
    ensures s[start..][..i - start] == s[start..i]
    ensures start == 0 ==> s[start..] == s
  {
    assert s[start..][..i - start] == s[start..i];
    FirstColonUnique(s[start..], i - start);
  }

  lemma NoColon(s: string, start: nat)
    requires start <= |s| && ':' !in s[start..]
    ensures FirstColon(s[start..]) == |s| - start
    ensures start == 0 ==> s[start..] == s
  {
    assert s[start..][..|s| - start] == s[start..];
    FirstColonUnique(s[start..], |s| - start);
  }

  function Colons(s: string): nat {
    if s == "" then 0 else (if s[0] == ':' then 1 else 0) + Colons(s[1..])
  }

  lemma {:induction false} ColonsAfterFirst(s: string)
    ensures FirstColon(s) == |s| ==> Colons(s) == 0
    ensures FirstColon(s) < |s| ==> Colons(s) == 1 + Colons(s[FirstColon(s) + 1..])
  {
    if s != "" && s[0] != ':' {
      ColonsAfterFirst(s[1..]);
      if FirstColon(s) < |s| {
        assert s[1..][FirstColon(s[1..]) + 1..] == s[FirstColon(s) + 1..];
      }
    }
  }

  /** The parts that come after the second colon of s, when it has one. */
  function AfterTwo(s: string): string {
    if FirstColon(s) == |s| then ""
    else
      var rest := s[FirstColon(s) + 1..];
      if FirstColon(rest) == |rest| then "" else rest[FirstColon(rest) + 1..]
  }

  lemma TwoColons(s: string)
    ensures Colons(s) >= 2 <==> FirstColon(s) < |s| && FirstColon(s[FirstColon(s) + 1..]) < |s| - FirstColon(s) - 1
  {
    ColonsAfterFirst(s);
    if FirstColon(s) < |s| {
      ColonsAfterFirst(s[FirstColon(s) + 1..]);
    }
  }

  /** parseMember succeeds exactly on two colons with something after the second, and loses nothing. */
  lemma ParseSucceeds(s: string)
    ensures Parts(s).Some? <==> Colons(s) >= 2 && AfterTwo(s) != ""
    ensures Parts(s).Some? ==>
              var p := Parts(s).value;
              && |p| == 3 && Join(p[0], p[1], p[2]) == s
              && ':' !in p[0] && ':' !in p[1] && p[2] == AfterTwo(s)
  {
    TwoColons(s);
    if Parts(s).Some? {
      PartsJoin(s);
    }
  }

  lemma PartsJoin(s: string)
    requires Parts(s).Some?
    ensures var p := Parts(s).value; Join(p[0], p[1], p[2]) == s
  {
    var i := FirstColon(s);
    var rest := s[i + 1..];
    SplitAt(s, i);
    SplitAt(rest, FirstColon(rest));
    JoinNests(s[..i], rest[..FirstColon(rest)], rest[FirstColon(rest) + 1..]);
  }

  lemma JoinNests(a: string, b: string, c: string)
    ensures Join(a, b, c) == a + ":" + (b + ":" + c)
  {
    assert a + ":" + b + ":" + c == a + ":" + (b + ":" + c);
  }

  lemma SplitAt(s: string, i: nat)
    requires i < |s| && s[i] == ':'
    ensures s == s[..i] + ":" + s[i + 1..]
  {
  }

  function Join(id: string, channel: string, priority: string): string {
    id + ":" + channel + ":" + priority
  }

  lemma ParseInvertsJoin(id: string, channel: string, priority: string)
    requires ':' !in id && ':' !in channel && priority != ""
    ensures Parts(Join(id, channel, priority)) == Some([id, channel, priority])
  {
    var s := Join(id, channel, priority);
    var rest := channel + ":" + priority;
    assert s == id + ":" + rest;
    assert s[..|id|] == id;
    FirstColonUnique(s, |id|);
    assert s[|id| + 1..] == rest;
    assert rest[..|channel|] == channel;
    FirstColonUnique(rest, |channel|);
    assert rest[|channel| + 1..] == priority;
  }

  /** The text form is injective on colon-free ids and channels and non-empty priorities. */
  lemma JoinInjective(id: string, channel: string, priority: string, id': string, channel': string, priority': string)
    requires ':' !in id && ':' !in channel && priority != ""
    requires ':' !in id' && ':' !in channel' && priority' != ""
    requires Join(id, channel, priority) == Join(id', channel', priority')
    ensures id == id' && channel == channel' && priority == priority'
  {
    ParseInvertsJoin(id, channel, priority);
    ParseInvertsJoin(id', channel', priority');
  }

  // ---------------------------------------------------------------- members

  /** The member EnqueueDelayed writes. */
  function Member(id: Uuid, channel: Channel, priority: Priority): string {
    Join(UuidText(id), ChannelText(channel), PriorityText(priority))
  }

  datatype Decoded = Decoded(id: Uuid, channel: string, priority: string)

  /** What processDelayedBatch makes of a member: nothing when it does not parse, the nil id when its id does not. */
  function Decode(member: string): Option<Decoded> {
    var parts := Parts(member);
    if parts.None? then None
    else
      ParseSucceeds(member);
      var id := ParseUuid(parts.value[0]);
      Some(Decoded(if id.Some? then id.value else NIL, parts.value[1], parts.value[2]))
  }

  lemma DecodeInvertsMember(id: Uuid, channel: Channel, priority: Priority)
    ensures Decode(Member(id, channel, priority)) == Some(Decoded(id, ChannelText(channel), PriorityText(priority)))
  {
    UuidRoundTrip(id);
    ParseInvertsJoin(UuidText(id), ChannelText(channel), PriorityText(priority));
  }

  /** Distinct notifications never share a member, so re-adding one moves no other. */
  lemma MemberInjective(id: Uuid, channel: Channel, priority: Priority, id': Uuid, channel': Channel,
      priority': Priority)
    requires Member(id, channel, priority) == Member(id', channel', priority')
    ensures id == id' && channel == channel' && priority == priority'
  {
    DecodeInvertsMember(id, channel, priority);
    DecodeInvertsMember(id', channel', priority');
    PriorityRoundTrip(priority);
    PriorityRoundTrip(priority');
    assert ChannelText(channel)[0] == ChannelText(channel')[0];
  }
}
