/**
 Texts that carry a tenant: the external reference of a charge
 ("tenant.record") and the refresh token ("tenant.secret").
 */
module References {
  import opened Calendar

  const DIGITS := "0123456789abcdef"

  predicate IsDigit(c: char) {
    '0' <= c <= '9' || 'a' <= c <= 'f'
  }

  predicate AllDigits(s: string) {
    forall k :: 0 <= k < |s| ==> IsDigit(s[k])
  }

  /** The lowest w hexadecimal digits of n. */
  function Hex(n: nat, w: nat): (s: string)
    ensures |s| == w
    ensures AllDigits(s)
  {
    if w == 0 then "" else
      assert IsDigit(DIGITS[n % 16]); Hex(n / 16, w - 1) + [DIGITS[n % 16]]
  }

  function DigitValue(c: char): Option<nat> {
    if '0' <= c <= '9' then Some(c as int - '0' as int)
    else if 'a' <= c <= 'f' then Some(c as int - 'a' as int + 10)
    else if 'A' <= c <= 'F' then Some(c as int - 'A' as int + 10)
    else None
  }

  function HexValue(s: string): Option<nat> {
    if s == "" then Some(0)
    else
      var high := HexValue(s[..|s| - 1]);
      var low := DigitValue(s[|s| - 1]);
      if high.None? || low.None? then None else Some(16 * high.value + low.value)
  }

  function Power16(w: nat): nat {
    if w == 0 then 1 else 16 * Power16(w - 1)
  }

  lemma {:induction false} HexRoundTrip(n: nat, w: nat)
    requires n < Power16(w)
    ensures HexValue(Hex(n, w)) == Some(n)
  {
    if w > 0 {
      HexRoundTrip(n / 16, w - 1);
      var s := Hex(n, w);
      assert s[..|s| - 1] == Hex(n / 16, w - 1) && s[|s| - 1] == DIGITS[n % 16];
      DigitRoundTrip(n % 16);
    }
  }

  lemma DigitRoundTrip(d: nat)
    requires d < 16
    ensures DigitValue(DIGITS[d]) == Some(d)
  {
    if d < 10 { assert DIGITS[d] == '0' + d as char; } else { assert DIGITS[d] == 'a' + (d - 10) as char; }
  }

  /** The canonical text of a UUID: 32 digits in groups of 8, 4, 4, 4 and 12. */
  function UuidText(id: Id): string {
    var h := Hex(id, 32);
    h[..8] + "-" + h[8..12] + "-" + h[12..16] + "-" + h[16..20] + "-" + h[20..]
  }

  function WithoutDashes(s: string): string {
    if s == "" then "" else (if s[0] == '-' then "" else [s[0]]) + WithoutDashes(s[1..])
  }

  /** uuid.UUID(text): dashes are dropped, 32 digits must remain. */
  function ParseUuid(s: string): Option<Id> {
    var h := WithoutDashes(s);
    var v := HexValue(h);
    if |h| == 32 && v.Some? && v.value < 0x1_0000_0000_0000_0000_0000_0000_0000_0000 then Some(v.value) else None
  }

  lemma {:induction false} DropsDashes(a: string, b: string)
    ensures WithoutDashes(a + b) == WithoutDashes(a) + WithoutDashes(b)
  {
    if a == "" {
      assert a + b == b;
    } else {
      assert (a + b)[1..] == a[1..] + b;
      DropsDashes(a[1..], b);
    }
  }

  lemma {:induction false} KeepsDigits(a: string)
    requires AllDigits(a)
    ensures WithoutDashes(a) == a
  {
    if a != "" { KeepsDigits(a[1..]); }
  }

  lemma DashIsDropped()
    ensures WithoutDashes("-") == ""
  {
    assert "-"[1..] == "";
  }

  lemma DashedGroup(a: string, b: string)
    requires AllDigits(a)
    ensures WithoutDashes(a + "-" + b) == a + WithoutDashes(b)
  {
    var group := a + "-";
    assert WithoutDashes(group) == a by {
      DropsDashes(a, "-");
      KeepsDigits(a);
      DashIsDropped();
    }
    DropsDashes(group, b);
  }

  /** The parts of a text that is cut at four places. */
  lemma FiveParts(h: string)
    requires |h| == 32
    ensures h == h[..8] + (h[8..12] + (h[12..16] + (h[16..20] + h[20..])))
  {
    assert h[16..] == h[16..20] + h[20..];
    assert h[12..] == h[12..16] + h[16..];
    assert h[8..] == h[8..12] + h[12..];
    assert h == h[..8] + h[8..];
  }

  lemma UuidTextWithoutDashes(id: Id)
    ensures WithoutDashes(UuidText(id)) == Hex(id, 32)
  {
    var h := Hex(id, 32);
    var d := h[20..];
    var c := h[16..20] + "-" + d;
    var b := h[12..16] + "-" + c;
    var a := h[8..12] + "-" + b;
    assert WithoutDashes(c) == h[16..20] + d by {
      KeepsDigits(d);
      DashedGroup(h[16..20], d);
    }
    assert WithoutDashes(b) == h[12..16] + (h[16..20] + d) by { DashedGroup(h[12..16], c); }
    assert WithoutDashes(a) == h[8..12] + (h[12..16] + (h[16..20] + d)) by { DashedGroup(h[8..12], b); }
    assert UuidText(id) == h[..8] + "-" + a;
    DashedGroup(h[..8], a);
    FiveParts(h);
  }

  lemma Power16Of32()
    ensures Power16(32) == 0x1_0000_0000_0000_0000_0000_0000_0000_0000
  {
    assert Power16(2) == 256;
    PowerAdds(2, 2);
    PowerAdds(4, 4);
    PowerAdds(8, 8);
    PowerAdds(16, 16);
  }

  lemma UuidRoundTrip(id: Id)
    ensures ParseUuid(UuidText(id)) == Some(id)
  {
    UuidTextWithoutDashes(id);
    Power16Of32();
    HexRoundTrip(id, 32);
  }

  lemma {:induction false} PowerAdds(a: nat, b: nat)
    ensures Power16(a + b) == Power16(a) * Power16(b)
  {
    if a > 0 {
      PowerAdds(a - 1, b);
      assert a + b - 1 == (a - 1) + b;
    }
  }

  /** text.split(".", 1): the parts around the first dot. */
  function SplitAtDot(s: string): Option<(string, string)> {
    if s == "" then None
    else if s[0] == '.' then Some(("", s[1..]))
    else
      var rest := SplitAtDot(s[1..]);
      if rest.None? then None else Some(([s[0]] + rest.value.0, rest.value.1))
  }

  lemma {:induction false} SplitFindsFirstDot(a: string, b: string)
    requires '.' !in a
    ensures SplitAtDot(a + "." + b) == Some((a, b))
  {
    var s := a + "." + b;
    if a == "" {
      assert s[1..] == b;
    } else {
      assert s[1..] == a[1..] + "." + b;
      SplitFindsFirstDot(a[1..], b);
      assert [a[0]] + a[1..] == a;
    }
  }

  lemma UuidTextHasNoDot(id: Id)
    ensures '.' !in UuidText(id)
  {
    var h := Hex(id, 32);
    assert forall c :: c in h[..8] || c in h[8..12] || c in h[12..16] || c in h[16..20] || c in h[20..] ==> c in h;
  }

  function ExternalReference(tenant: Id, record: Id): string {
    UuidText(tenant) + "." + UuidText(record)
  }

  function ParseReference(s: string): Option<(Id, Id)> {
    var parts := SplitAtDot(s);
    if parts.None? then None
    else
      var tenant := ParseUuid(parts.value.0);
      var record := ParseUuid(parts.value.1);
      if tenant.None? || record.None? then None else Some((tenant.value, record.value))
  }

  /** A webhook that carries the reference built at charge creation is routed to that tenant and record. */
  lemma ReferenceRoundTrip(tenant: Id, record: Id)
    ensures ParseReference(ExternalReference(tenant, record)) == Some((tenant, record))
  {
    UuidTextHasNoDot(tenant);
    SplitFindsFirstDot(UuidText(tenant), UuidText(record));
    UuidRoundTrip(tenant);
    UuidRoundTrip(record);
  }

  function RefreshTokenText(tenant: Id, secret: string): string {
    UuidText(tenant) + "." + secret
  }

  /** raw.partition("."): without a dot the whole text is the prefix. */
  function TokenTenant(raw: string): Option<Id> {
    var parts := SplitAtDot(raw);
    ParseUuid(if parts.Some? then parts.value.0 else raw)
  }

  /** Whatever the secret, dots included, a refresh token names the tenant it was issued for. */
  lemma TokenTenantRoundTrip(tenant: Id, secret: string)
    ensures TokenTenant(RefreshTokenText(tenant, secret)) == Some(tenant)
  {
    UuidTextHasNoDot(tenant);
    SplitFindsFirstDot(UuidText(tenant), secret);
    UuidRoundTrip(tenant);
  }

  // ----- which texts are accepted

  predicate IsHexDigit(c: char) {
    '0' <= c <= '9' || 'a' <= c <= 'f' || 'A' <= c <= 'F'
  }

  lemma {:induction false} HexValueExactly(s: string)
    ensures HexValue(s).Some? <==> forall c :: c in s ==> IsHexDigit(c)
    ensures HexValue(s).Some? ==> HexValue(s).value < Power16(|s|)
    decreases |s|
  {
    if s != "" {
      var rest, last := s[..|s| - 1], s[|s| - 1];
      HexValueExactly(rest);
      assert s == rest + [last];
      assert DigitValue(last).Some? <==> IsHexDigit(last);
      assert (forall c :: c in s ==> IsHexDigit(c)) <==> (forall c :: c in rest ==> IsHexDigit(c)) && IsHexDigit(last);
    }
  }

  /** A UUID text is accepted exactly if 32 hexadecimal digits remain when its dashes are dropped. */
  lemma ParseUuidExactly(s: string)
    ensures ParseUuid(s).Some? <==> |WithoutDashes(s)| == 32 && forall c :: c in WithoutDashes(s) ==> IsHexDigit(c)
  {
    HexValueExactly(WithoutDashes(s));
    Power16Of32();
  }

  /** The text is cut at its first dot, and only a text without one is not cut. */
  lemma {:induction false} SplitAtDotExactly(s: string)
    ensures SplitAtDot(s).None? <==> '.' !in s
    ensures SplitAtDot(s).Some? ==>
              var (head, tail) := SplitAtDot(s).value;
              '.' !in head && s == head + "." + tail
  {
    if s != "" && s[0] != '.' {
      SplitAtDotExactly(s[1..]);
      assert s == [s[0]] + s[1..];
    }
  }
}
