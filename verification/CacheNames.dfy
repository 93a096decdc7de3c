/** Names of cache files: how one component of an object key becomes one file name.

    Plain names stay; names that the file system or the cache itself would misread are
    written in unpadded base64url (section 5 of RFC 4648) behind a reserved prefix; names
    too long even for that become a digest. The decoder here shows that nothing but a
    digest can make two components share a name.
 */
module CacheNames {
  type Name = string

  const PREFIX: string := ".~ngs3fs~."
  const VALUE: string := ".~ngs3fs~.value"
  const PROMOTE: string := ".~ngs3fs~.promote-"

  /** Keys are byte strings. */
  predicate IsBytes(s: string) { forall i | 0 <= i < |s| :: s[i] as int < 256 }

  // ---------------------------------------------------------------- base64url

  /** The alphabet: upper-case letters, lower-case letters, digits, '-' and '_'. */
  function Digit(x: nat): char
    requires x < 64
  {
    if x < 26 then ('A' as int + x) as char
    else if x < 52 then ('a' as int + (x - 26)) as char
    else if x < 62 then ('0' as int + (x - 52)) as char
    else if x == 62 then '-' else '_'
  }

  /** The value of a digit; 0 for anything else. */
  function DigitValue(c: char): (x: nat)
    ensures x < 64
  {
    if 'A' <= c <= 'Z' then c as int - 'A' as int
    else if 'a' <= c <= 'z' then c as int - 'a' as int + 26
    else if '0' <= c <= '9' then c as int - '0' as int + 52
    else if c == '-' then 62
    else if c == '_' then 63
    else 0
  }

  lemma DigitRoundTrip(x: nat)
    requires x < 64
    ensures DigitValue(Digit(x)) == x
  {
  }

  /** Three bytes as four digits. */
  function Group(a: nat, b: nat, c: nat): string
    requires a < 256 && b < 256 && c < 256
  {
    [Digit(a / 4), Digit(a % 4 * 16 + b / 16), Digit(b % 16 * 4 + c / 64), Digit(c % 64)]
  }

  function Tail(s: string): string
    requires IsBytes(s) && |s| < 3
  {
    if |s| == 0 then ""
    else if |s| == 1 then [Digit(s[0] as int / 4), Digit(s[0] as int % 4 * 16)]
    else [Digit(s[0] as int / 4), Digit(s[0] as int % 4 * 16 + s[1] as int / 16), Digit(s[1] as int % 16 * 4)]
  }

  function Encode64(s: string): string
    requires IsBytes(s)
    decreases |s|
  {
    if |s| < 3 then Tail(s) else Group(s[0] as int, s[1] as int, s[2] as int) + Encode64(s[3..])
  }

  /** Inverse of the encoding. */
  function Decode64(t: string): string
    decreases |t|
  {
    if |t| < 2 then ""
    else
      var a, b := DigitValue(t[0]), DigitValue(t[1]);
      var first := (a * 4 + b / 16) as char;
      if |t| == 2 then [first]
      else
        var c := DigitValue(t[2]);
        var second := (b % 16 * 16 + c / 4) as char;
        if |t| == 3 then [first, second]
        else [first, second, (c % 4 * 64 + DigitValue(t[3])) as char] + Decode64(t[4..])
  }

  lemma DecodeTail(s: string)
    requires IsBytes(s) && |s| < 3
    ensures Decode64(Tail(s)) == s
  {
    if |s| > 0 {
      var a := s[0] as int;
      DigitRoundTrip(a / 4);
      if |s| == 1 {
        DigitRoundTrip(a % 4 * 16);
      } else {
        var b := s[1] as int;
        DigitRoundTrip(a % 4 * 16 + b / 16);
        DigitRoundTrip(b % 16 * 4);
      }
    }
  }

  lemma Recombine(a: nat, b: nat, c: nat)
    requires a < 256 && b < 256 && c < 256
    ensures var x, y, z := a / 4, a % 4 * 16 + b / 16, b % 16 * 4 + c / 64;
            x * 4 + y / 16 == a && y % 16 * 16 + z / 4 == b && z % 4 * 64 + c % 64 == c
  {
  }

  lemma DecodeGroup(a: nat, b: nat, c: nat, rest: string)
    requires a < 256 && b < 256 && c < 256
    ensures Decode64(Group(a, b, c) + rest) == [a as char, b as char, c as char] + Decode64(rest)
  {
    DigitRoundTrip(a / 4);
    DigitRoundTrip(a % 4 * 16 + b / 16);
    DigitRoundTrip(b % 16 * 4 + c / 64);
    DigitRoundTrip(c % 64);
    hide Digit, DigitValue;
    Recombine(a, b, c);
    var t := Group(a, b, c) + rest;
    assert |t| >= 4 && t[4..] == rest;
    assert t[0] == Digit(a / 4) && t[1] == Digit(a % 4 * 16 + b / 16) && t[2] == Digit(b % 16 * 4 + c / 64) &&
           t[3] == Digit(c % 64);
  }

  /** Decoding inverts encoding, so the encoding is injective. */
  lemma {:induction false} Base64RoundTrip(s: string)
    requires IsBytes(s)
    ensures Decode64(Encode64(s)) == s
    decreases |s|
  {
    if |s| < 3 {
      DecodeTail(s);
    } else {
      Base64RoundTrip(s[3..]);
      DecodeGroup(s[0] as int, s[1] as int, s[2] as int, Encode64(s[3..]));
      assert s == [s[0], s[1], s[2]] + s[3..];
    }
  }

  /** The source's loop. */
  method Base64Url(value: string) returns (result: string)
    requires IsBytes(value)
    ensures result == Encode64(value)
    ensures |result| == (|value| * 4 + 2) / 3
  {
    hide Digit;
    result := "";
    var i := 0;
    while i + 3 <= |value|
      invariant 0 <= i <= |value| && 3 * |result| == 4 * i
      invariant Encode64(value) == result + Encode64(value[i..])
    {
      var a, b, c := value[i] as int, value[i + 1] as int, value[i + 2] as int;
      ghost var before := result;
      result := result + [Digit(a / 4)];
      result := result + [Digit(a % 4 * 16 + b / 16)];
      result := result + [Digit(b % 16 * 4 + c / 64)];
      result := result + [Digit(c % 64)];
      assert result == before + Group(a, b, c);
      EncodeNext(value, i, before);
      i := i + 3;
    }
    ghost var before := result;
    if i != |value| {
      var a := value[i] as int;
      result := result + [Digit(a / 4)];
      if i + 1 == |value| {
        result := result + [Digit(a % 4 * 16)];
      } else {
        var b := value[i + 1] as int;
        result := result + [Digit(a % 4 * 16 + b / 16)];
        result := result + [Digit(b % 16 * 4)];
      }
    }
    assert result == before + Tail(value[i..]);
  }

  lemma EncodeNext(value: string, i: nat, before: string)
    requires IsBytes(value) && i + 3 <= |value|
    ensures before + Encode64(value[i..]) ==
            before + Group(value[i] as int, value[i + 1] as int, value[i + 2] as int) + Encode64(value[i + 3..])
  {
    hide Digit;
    assert value[i..][3..] == value[i + 3..];
  }

  // ---------------------------------------------------------------- one component

  predicate NeedsEscape(s: string)
  {
    s == "" || s == "." || s == ".." || PREFIX <= s || exists i :: 0 <= i < |s| && (s[i] as int < 0x20 || s[i] as int == 0x7f)
  }

  datatype Encoded = Plain(name: Name) | Escaped(name: Name) | Hashed(name: Name) | TooLong

  /** `cache_encode_component`; `digest` is the hexadecimal SHA-256 of the component. */
  function EncodeComponent(s: string, nameMax: nat, digest: string): Encoded
    requires IsBytes(s)
  {
    if !NeedsEscape(s) && |s| <= nameMax then Plain(s)
    else
      var escaped := PREFIX + "b" + Encode64(s);
      if |escaped| <= nameMax then Escaped(escaped)
      else
        var hashed := PREFIX + "h" + digest;
        if |hashed| <= nameMax then Hashed(hashed) else TooLong
  }

  /** What a name stands for, when it is not a digest. */
  function DecodeComponent(name: Name): string
  {
    if PREFIX <= name && |name| > |PREFIX| && name[|PREFIX|] == 'b' then Decode64(name[|PREFIX| + 1..]) else name
  }

  lemma ComponentRoundTrip(s: string, nameMax: nat, digest: string)
    requires IsBytes(s)
    ensures var e := EncodeComponent(s, nameMax, digest);
            e.Plain? || e.Escaped? ==> DecodeComponent(e.name) == s
  {
    Base64RoundTrip(s);
    var escaped := PREFIX + "b" + Encode64(s);
    assert escaped[|PREFIX|] == 'b' && escaped[|PREFIX| + 1..] == Encode64(s);
    assert escaped[..|PREFIX|] == PREFIX;
  }

  /** Names the cache uses itself are never the name of a component. */
  lemma ReservedNames(s: string, nameMax: nat, digest: string)
    requires IsBytes(s)
    ensures var e := EncodeComponent(s, nameMax, digest);
            !e.TooLong? ==> e.name != VALUE && !(PROMOTE <= e.name) && e.name != "" && e.name != "." && e.name != ".."
  {
    assert PROMOTE[|PREFIX|] == 'p' && PROMOTE[..|PREFIX|] == PREFIX;
    forall n: Name | PROMOTE <= n ensures PREFIX <= n && n[|PREFIX|] == 'p' {
      assert n[..|PROMOTE|] == PROMOTE && n[..|PREFIX|] == PROMOTE[..|PREFIX|] && n[|PREFIX|] == PROMOTE[|PREFIX|];
    }
    assert VALUE[|PREFIX|] == 'v' && VALUE[..|PREFIX|] == PREFIX;
    var escaped, hashed := PREFIX + "b" + Encode64(s), PREFIX + "h" + digest;
    assert escaped[|PREFIX|] == 'b' && hashed[|PREFIX|] == 'h';
  }

  /** Safe in a file name: no control character and no separator. */
  predicate Printable(s: string) { forall i | 0 <= i < |s| :: 0x20 <= s[i] as int && s[i] as int != 0x7f && s[i] != '/' }

  lemma DigitIsPrintable(x: nat)
    requires x < 64
    ensures Printable([Digit(x)])
  {
  }

  lemma {:induction false} Encode64IsPrintable(s: string)
    requires IsBytes(s)
    ensures Printable(Encode64(s))
    decreases |s|
  {
    forall x: nat | x < 64 ensures 0x20 <= Digit(x) as int && Digit(x) as int != 0x7f && Digit(x) != '/' {
      DigitIsPrintable(x);
      assert [Digit(x)][0] == Digit(x);
    }
    hide Digit;
    if |s| >= 3 { Encode64IsPrintable(s[3..]); }
  }

  /** The name of a component fits the file system and is printable, whatever bytes the component has; a component that is
      itself such a name, and not reserved, keeps it. */
  lemma NamesAreSafe(s: string, nameMax: nat, digest: string)
    requires IsBytes(s) && '/' !in s && Printable(digest)
    ensures var e := EncodeComponent(s, nameMax, digest);
            && (!e.TooLong? ==> |e.name| <= nameMax && Printable(e.name))
            && (Printable(s) && !(PREFIX <= s) && s != "" && s != "." && s != ".." && |s| <= nameMax ==> e == Plain(s))
            && (|PREFIX| + 1 + |digest| <= nameMax ==> !e.TooLong?)
  {
    Encode64IsPrintable(s);
    hide Encode64;
  }

  /** Two components share a name exactly when they are equal, or both are digests and the digests agree. */
  lemma SameNameIff(s: string, t: string, nameMax: nat, ds: string, dt: string)
    requires IsBytes(s) && IsBytes(t) && (s == t ==> ds == dt)
    requires !EncodeComponent(s, nameMax, ds).TooLong? && !EncodeComponent(t, nameMax, dt).TooLong?
    ensures var e, f := EncodeComponent(s, nameMax, ds), EncodeComponent(t, nameMax, dt);
            e.name == f.name <==> s == t || (e.Hashed? && f.Hashed? && ds == dt)
  {
    ComponentRoundTrip(s, nameMax, ds);
    ComponentRoundTrip(t, nameMax, dt);
    var hs, ht := PREFIX + "h" + ds, PREFIX + "h" + dt;
    var es, et := PREFIX + "b" + Encode64(s), PREFIX + "b" + Encode64(t);
    assert hs[|PREFIX|] == 'h' && ht[|PREFIX|] == 'h' && es[|PREFIX|] == 'b' && et[|PREFIX|] == 'b';
    assert hs[..|PREFIX|] == PREFIX && ht[..|PREFIX|] == PREFIX && es[..|PREFIX|] == PREFIX && et[..|PREFIX|] == PREFIX;
    assert hs[|PREFIX| + 1..] == ds && ht[|PREFIX| + 1..] == dt;
  }
}
