/**
 The `ar` container of a Debian package: a magic, then members of a fixed 60-byte header and
 data padded to even length. Parsing what the fixture printer wrote gives the members back.
 */
module ArArchive {
  import opened Options

  type Byte = n: nat | n < 256
  type Bytes = seq<Byte>

  const AR_MAGIC: Bytes := [0x21, 0x3C, 0x61, 0x72, 0x63, 0x68, 0x3E, 0x0A]
  const AR_HEADER_LEN: nat := 60
  const AR_MEMBER_MAGIC: Bytes := [0x60, 0x0A]
  const SPACE: Byte := 0x20

  datatype Member = Member(name: string, data: Bytes)

  datatype ArError =
    | BadMagic | TruncatedHeader | BadMemberMagic | NonUtf8Name | NonUtf8Size | NonNumericSize | TruncatedData

  datatype Result<T> = Ok(value: T) | Err(error: ArError)

  // ---------------------------------------------------------------- text

  /** Unicode White_Space, which `str::trim_end` strips. */
  predicate IsWhitespace(c: char) {
    var n := c as int;
    || 0x09 <= n <= 0x0D || n == 0x20 || n == 0x85 || n == 0xA0 || n == 0x1680 || 0x2000 <= n <= 0x200A
    || n == 0x2028 || n == 0x2029 || n == 0x202F || n == 0x205F || n == 0x3000
  }

  function TrimEnd(s: string): string {
    if s != [] && IsWhitespace(s[|s| - 1]) then TrimEnd(s[..|s| - 1]) else s
  }

  function TrimSlashes(s: string): string {
    if s != [] && s[|s| - 1] == '/' then TrimSlashes(s[..|s| - 1]) else s
  }

  predicate IsDigit(c: char) {
    '0' <= c <= '9'
  }

  function Digits(s: string): Option<nat> {
    if s == [] then Some(0)
    else if !IsDigit(s[|s| - 1]) then None
    else
      match Digits(s[..|s| - 1])
      case None => None
      case Some(high) => Some(10 * high + (s[|s| - 1] as int - '0' as int))
  }

  /** `str::parse::<usize>`: an optional plus sign, then at least one digit. Ten characters cannot overflow. */
  function ParseUsize(s: string): Option<nat> {
    var digits := if s != [] && s[0] == '+' then s[1..] else s;
    if digits == [] then None else Digits(digits)
  }

  // ---------------------------------------------------------------- the parser

  /** UTF-8 decoding, of which only its agreement with ASCII is used. */
  type Decoder = Bytes -> Option<string>

  function Chars(b: Bytes): (s: string)
    ensures |s| == |b| && forall i | 0 <= i < |b| :: s[i] as int == b[i]
  {
    seq(|b|, i requires 0 <= i < |b| => b[i] as char)
  }

  ghost predicate DecodesAscii(decode: Decoder) {
    forall b: Bytes | (forall i | 0 <= i < |b| :: b[i] < 128) :: decode(b) == Some(Chars(b))
  }

  /** One member off the front of a non-empty body, and the rest of the body after its padding. */
  function ParseMember(body: Bytes, decode: Decoder): (r: Result<(Member, Bytes)>)
    requires body != []
    ensures r.Ok? ==> |r.value.1| < |body|
  {
    if |body| < AR_HEADER_LEN then Err(TruncatedHeader)
    else
      var header, rest := body[..AR_HEADER_LEN], body[AR_HEADER_LEN..];
      if header[58..60] != AR_MEMBER_MAGIC then Err(BadMemberMagic)
      else if decode(header[0..16]) == None then Err(NonUtf8Name)
      else if decode(header[48..58]) == None then Err(NonUtf8Size)
      else
        match ParseUsize(TrimEnd(decode(header[48..58]).value))
        case None => Err(NonNumericSize)
        case Some(size) =>
          if |rest| < size then Err(TruncatedData)
          else
            var name := TrimSlashes(TrimEnd(decode(header[0..16]).value));
            Ok((Member(name, rest[..size]), if size % 2 == 1 && size < |rest| then rest[size + 1..] else rest[size..]))
  }

  function ParseMembers(body: Bytes, decode: Decoder): Result<seq<Member>>
    decreases |body|
  {
    if body == [] then Ok([])
    else
      match ParseMember(body, decode)
      case Err(e) => Err(e)
      case Ok((member, rest)) =>
        match ParseMembers(rest, decode)
        case Err(e) => Err(e)
        case Ok(members) => Ok([member] + members)
  }

  function Parsed(bytes: Bytes, decode: Decoder): Result<seq<Member>> {
    if !(AR_MAGIC <= bytes) then Err(BadMagic) else ParseMembers(bytes[|AR_MAGIC|..], decode)
  }

  /** The members read so far, in front of what the rest of the body parses to. */
  function Prepend(members: seq<Member>, r: Result<seq<Member>>): Result<seq<Member>> {
    match r
    case Err(e) => Err(e)
    case Ok(more) => Ok(members + more)
  }

  lemma PrependNothing(r: Result<seq<Member>>)
    ensures Prepend([], r) == r
  {
    if r.Ok? { assert [] + r.value == r.value; }
  }

  /** One member read, then the rest. */
  lemma ParseMembersUnfolds(body: Bytes, member: Member, next: Bytes, decode: Decoder)
    requires body != [] && ParseMember(body, decode) == Ok((member, next))
    ensures ParseMembers(body, decode) == Prepend([member], ParseMembers(next, decode))
  {
    hide ParseMember;
  }

  lemma PrependTwice(members: seq<Member>, member: Member, r: Result<seq<Member>>)
    ensures Prepend(members, Prepend([member], r)) == Prepend(members + [member], r)
  {
    if r.Ok? { assert members + ([member] + r.value) == members + [member] + r.value; }
  }

  lemma OneMember(members: seq<Member>, body: Bytes, member: Member, next: Bytes, decode: Decoder)
    requires body != [] && ParseMember(body, decode) == Ok((member, next))
    ensures Prepend(members, ParseMembers(body, decode)) == Prepend(members + [member], ParseMembers(next, decode))
  {
    hide ParseMember, ParseMembers, Prepend;
    ParseMembersUnfolds(body, member, next, decode);
    PrependTwice(members, member, ParseMembers(next, decode));
  }

  method ParseAr(bytes: Bytes, decode: Decoder) returns (r: Result<seq<Member>>)
    ensures r == Parsed(bytes, decode)
  {
    if !(AR_MAGIC <= bytes) {
      return Err(BadMagic);
    }
    var body := bytes[|AR_MAGIC|..];
    var members: seq<Member> := [];
    ghost var whole := ParseMembers(body, decode);
    PrependNothing(whole);
    while body != []
      invariant whole == Prepend(members, ParseMembers(body, decode))
      decreases |body|
    {
      if |body| < AR_HEADER_LEN {
        return Err(TruncatedHeader);
      }
      var header, rest := body[..AR_HEADER_LEN], body[AR_HEADER_LEN..];
      if header[58..60] != AR_MEMBER_MAGIC {
        return Err(BadMemberMagic);
      }
      var rawName := decode(header[0..16]);
      if rawName == None {
        return Err(NonUtf8Name);
      }
      var name := TrimSlashes(TrimEnd(rawName.value));
      var rawSize := decode(header[48..58]);
      if rawSize == None {
        return Err(NonUtf8Size);
      }
      var parsed := ParseUsize(TrimEnd(rawSize.value));
      if parsed == None {
        return Err(NonNumericSize);
      }
      var size := parsed.value;
      if |rest| < size {
        return Err(TruncatedData);
      }
      var data := rest[..size];
      rest := rest[size..];
      var next := if size % 2 == 1 && rest != [] then rest[1..] else rest;
      OneMember(members, body, Member(name, data), next, decode);
      members := members + [Member(name, data)];
      body := next;
    }
    r := Ok(members);
    assert members + [] == members;
  }

  /** A parsed archive is used up entirely: magic, headers, data and padding add up to its length,
      of which only the very last pad byte may be missing. */
  function SizeOf(members: seq<Member>): nat {
    if members == [] then 0
    else AR_HEADER_LEN + |members[0].data| + |members[0].data| % 2 + SizeOf(members[1..])
  }

  lemma {:induction false} ParsingUsesEveryByte(body: Bytes, decode: Decoder)
    requires ParseMembers(body, decode).Ok?
    ensures var n := SizeOf(ParseMembers(body, decode).value); |body| == n || |body| + 1 == n
    decreases |body|
  {
    if body != [] {
      var (member, rest) := ParseMember(body, decode).value;
      ParsingUsesEveryByte(rest, decode);
      var members := ParseMembers(body, decode).value;
      assert members[0] == member && members[1..] == ParseMembers(rest, decode).value;
    }
  }

  // ---------------------------------------------------------------- the printer

  function Decimal(n: nat): (s: string)
    ensures |s| >= 1 && forall i | 0 <= i < |s| :: IsDigit(s[i])
  {
    var last := [(n % 10 + '0' as int) as char];
    if n < 10 then last else Decimal(n / 10) + last
  }

  predicate IsAscii(s: string) {
    forall i | 0 <= i < |s| :: s[i] as int < 128
  }

  function AsBytes(s: string): (b: Bytes)
    requires IsAscii(s)
    ensures |b| == |s| && forall i | 0 <= i < |s| :: b[i] == s[i] as int
  {
    seq(|s|, i requires 0 <= i < |s| => s[i] as int)
  }

  function Blank(n: nat): (b: Bytes)
    ensures |b| == n && forall i | 0 <= i < n :: b[i] == SPACE
  {
    seq(n, _ => SPACE)
  }

  predicate Printable(m: Member) {
    |m.name| <= 16 && IsAscii(m.name) && |Decimal(|m.data|)| <= 10
  }

  function Field(b: Bytes, width: nat): (field: Bytes)
    requires |b| <= width
    ensures |field| == width && b <= field && forall i | |b| <= i < width :: field[i] == SPACE
  {
    b + Blank(width - |b|)
  }

  /** Only `name` and `size` are filled in; every other field stays blank. */
  function ArHeader(name: string, size: nat): (header: Bytes)
    requires |name| <= 16 && IsAscii(name) && |Decimal(size)| <= 10
    ensures |header| == AR_HEADER_LEN
  {
    Field(AsBytes(name), 16) + Blank(32) + Field(AsBytes(Decimal(size)), 10) + AR_MEMBER_MAGIC
  }

  function Padding(size: nat): Bytes {
    if size % 2 == 1 then [0x0A] else []
  }

  function BuildMembers(members: seq<Member>): Bytes
    requires forall m | m in members :: Printable(m)
  {
    if members == [] then []
    else
      var m := members[0];
      assert Printable(members[0]);
      ArHeader(m.name, |m.data|) + m.data + Padding(|m.data|) + BuildMembers(members[1..])
  }

  function BuildAr(members: seq<Member>): Bytes
    requires forall m | m in members :: Printable(m)
  {
    AR_MAGIC + BuildMembers(members)
  }

  // ---------------------------------------------------------------- the round trip

  lemma DigitOf(d: nat)
    requires d < 10
    ensures var c := (d + '0' as int) as char; IsDigit(c) && c as int - '0' as int == d
  {
  }

  lemma DigitsSnoc(s: string, d: nat)
    requires d < 10
    ensures Digits(s + [(d + '0' as int) as char]) ==
      match Digits(s) { case None => None case Some(high) => Some(10 * high + d) }
  {
    var c := (d + '0' as int) as char;
    DigitOf(d);
    DigitsOneMore(s, c);
  }

  lemma DigitsOneMore(s: string, c: char)
    requires IsDigit(c)
    ensures Digits(s + [c]) ==
      match Digits(s) { case None => None case Some(high) => Some(10 * high + (c as int - '0' as int)) }
  {
    var longer := s + [c];
    assert longer[..|longer| - 1] == s && longer[|longer| - 1] == c && longer != [];
  }

  lemma {:induction false} DigitsOfDecimal(n: nat)
    ensures Digits(Decimal(n)) == Some(n)
  {
    hide Digits;
    if n < 10 {
      DigitsSnoc([], n);
      assert [] + Decimal(n) == Decimal(n);
      assert Digits([]) == Some(0) by { NoDigits(); }
    } else {
      DigitsOfDecimal(n / 10);
      DigitsSnoc(Decimal(n / 10), n % 10);
    }
  }

  lemma NoDigits()
    ensures Digits([]) == Some(0)
  {
  }

  /** Ten digits is what the size field holds. */
  lemma {:induction false} DecimalFits(n: nat, width: nat, bound: nat)
    requires width >= 1 && bound == Pow10(width)
    ensures |Decimal(n)| <= width <==> n < bound
    decreases width
  {
    if width == 1 {
      assert bound == 10;
      if n >= 10 { assert |Decimal(n)| >= 2; }
    } else if n >= 10 {
      DecimalFits(n / 10, width - 1, Pow10(width - 1));
      assert n / 10 < Pow10(width - 1) <==> n < 10 * Pow10(width - 1);
    } else {
      PowAtLeast10(width);
    }
  }

  function Pow10(n: nat): nat {
    if n == 0 then 1 else 10 * Pow10(n - 1)
  }

  lemma {:induction false} PowAtLeast10(n: nat)
    requires n >= 1
    ensures Pow10(n) >= 10
  {
    if n > 1 { PowAtLeast10(n - 1); }
  }

  lemma {:induction false} TrimPadded(s: string, padded: string)
    requires s <= padded && forall i | |s| <= i < |padded| :: padded[i] == ' '
    ensures TrimEnd(padded) == TrimEnd(s)
    decreases |padded|
  {
    if |padded| == |s| {
      assert padded == s;
    } else {
      TrimPadded(s, padded[..|padded| - 1]);
    }
  }

  lemma TrimDigits(s: string)
    requires |s| >= 1 && forall i | 0 <= i < |s| :: IsDigit(s[i])
    ensures TrimEnd(s) == s
  {
  }

  lemma HeaderFields(name: Bytes, blank: Bytes, size: Bytes, magic: Bytes)
    requires |name| == 16 && |blank| == 32 && |size| == 10 && |magic| == 2
    ensures var header := name + blank + size + magic;
      header[0..16] == name && header[48..58] == size && header[58..60] == magic
  {
  }

  /** A padded ASCII field decodes to the text it was made from, up to trailing whitespace. */
  lemma FieldReadsBack(s: string, width: nat, decode: Decoder)
    requires IsAscii(s) && |s| <= width && DecodesAscii(decode)
    ensures decode(Field(AsBytes(s), width)).Some?
    ensures TrimEnd(decode(Field(AsBytes(s), width)).value) == TrimEnd(s)
  {
    var field := Field(AsBytes(s), width);
    assert decode(field) == Some(Chars(field));
    assert forall i | 0 <= i < |s| :: Chars(field)[i] as int == s[i] as int;
    TrimPadded(s, Chars(field));
  }

  /** A header reads back as its size and the trimmed name. */
  lemma HeaderReadsBack(name: string, size: nat, decode: Decoder)
    requires |name| <= 16 && IsAscii(name) && |Decimal(size)| <= 10 && DecodesAscii(decode)
    ensures var header := ArHeader(name, size);
      && header[58..60] == AR_MEMBER_MAGIC
      && decode(header[0..16]).Some? && TrimEnd(decode(header[0..16]).value) == TrimEnd(name)
      && decode(header[48..58]).Some? && ParseUsize(TrimEnd(decode(header[48..58]).value)) == Some(size)
  {
    var digits := Decimal(size);
    FieldReadsBack(name, 16, decode);
    FieldReadsBack(digits, 10, decode);
    TrimDigits(digits);
    DigitsOfDecimal(size);
    HeaderFields(Field(AsBytes(name), 16), Blank(32), Field(AsBytes(digits), 10), AR_MEMBER_MAGIC);
    hide Field, AsBytes, Blank, Decimal, DecodesAscii, TrimEnd, Digits;
  }

  function Trimmed(m: Member): Member {
    m.(name := TrimSlashes(TrimEnd(m.name)))
  }

  function AllTrimmed(members: seq<Member>): seq<Member> {
    if members == [] then [] else [Trimmed(members[0])] + AllTrimmed(members[1..])
  }

  lemma MemberReadsBack(m: Member, after: Bytes, decode: Decoder)
    requires Printable(m) && DecodesAscii(decode)
    ensures
      var body := ArHeader(m.name, |m.data|) + m.data + Padding(|m.data|) + after;
      ParseMember(body, decode) == Ok((Trimmed(m), after))
  {
    HeaderReadsBack(m.name, |m.data|, decode);
    BodyParts(ArHeader(m.name, |m.data|), m.data, after);
    hide ArHeader, ParseMember, TrimEnd, TrimSlashes, ParseUsize, DecodesAscii, Decimal, Padding;
    Assemble(ArHeader(m.name, |m.data|) + m.data + Padding(|m.data|) + after, ArHeader(m.name, |m.data|), m, after, decode);
  }

  lemma Assemble(body: Bytes, header: Bytes, m: Member, after: Bytes, decode: Decoder)
    requires |header| == AR_HEADER_LEN && header[58..60] == AR_MEMBER_MAGIC
    requires decode(header[0..16]).Some? && TrimEnd(decode(header[0..16]).value) == TrimEnd(m.name)
    requires decode(header[48..58]).Some? && ParseUsize(TrimEnd(decode(header[48..58]).value)) == Some(|m.data|)
    requires |body| >= AR_HEADER_LEN && body[..AR_HEADER_LEN] == header
    requires var rest := body[AR_HEADER_LEN..];
      && |rest| >= |m.data| && rest[..|m.data|] == m.data
      && (|m.data| % 2 == 1 ==> |m.data| < |rest| && rest[|m.data| + 1..] == after)
      && (|m.data| % 2 == 0 ==> rest[|m.data|..] == after)
    ensures ParseMember(body, decode) == Ok((Trimmed(m), after))
  {
    hide TrimEnd, TrimSlashes, ParseUsize;
  }

  lemma BodyParts(header: Bytes, data: Bytes, after: Bytes)
    requires |header| == AR_HEADER_LEN
    ensures
      var body := header + data + Padding(|data|) + after;
      var rest := body[AR_HEADER_LEN..];
      && body[..AR_HEADER_LEN] == header && |rest| >= |data| && rest[..|data|] == data
      && (|data| % 2 == 1 ==> |data| < |rest| && rest[|data| + 1..] == after)
      && (|data| % 2 == 0 ==> rest[|data|..] == after)
  {
    var body := header + data + Padding(|data|) + after;
    assert body[AR_HEADER_LEN..] == data + Padding(|data|) + after;
  }

  /** Odd sizes and padding included, the printed archive parses to the same members with their
      names trimmed. */
  lemma {:induction false} PrintedParses(members: seq<Member>, decode: Decoder)
    requires DecodesAscii(decode) && forall m | m in members :: Printable(m)
    ensures ParseMembers(BuildMembers(members), decode) == Ok(AllTrimmed(members))
  {
    if members != [] {
      PrintedParses(members[1..], decode);
      MemberReadsBack(members[0], BuildMembers(members[1..]), decode);
    }
  }

  /** A name the fixed-width field can carry: it does not end in what the parser strips. */
  predicate Carried(name: string) {
    name == [] || (!IsWhitespace(name[|name| - 1]) && name[|name| - 1] != '/')
  }

  lemma {:induction false} TrimShortens(s: string)
    ensures |TrimEnd(s)| <= |s| && |TrimSlashes(s)| <= |s|
  {
    if s != [] { TrimShortens(s[..|s| - 1]); }
  }

  lemma TrimmedIffCarried(name: string)
    ensures TrimSlashes(TrimEnd(name)) == name <==> Carried(name)
  {
    TrimShortens(name);
    TrimShortens(TrimEnd(name));
    if name != [] {
      TrimShortens(name[..|name| - 1]);
      TrimShortens(TrimEnd(name[..|name| - 1]));
    }
  }

  lemma SameIffCarried(m: Member)
    ensures Trimmed(m) == m <==> Carried(m.name)
  {
    hide TrimSlashes, TrimEnd, Carried;
    TrimmedIffCarried(m.name);
  }

  lemma ConsEqual<X>(x: X, xs: seq<X>, y: X, ys: seq<X>)
    ensures [x] + xs == [y] + ys <==> x == y && xs == ys
  {
    if [x] + xs == [y] + ys {
      assert ([x] + xs)[0] == ([y] + ys)[0] && ([x] + xs)[1..] == ([y] + ys)[1..];
      assert ([x] + xs)[1..] == xs && ([y] + ys)[1..] == ys;
    }
  }

  lemma {:induction false} AllTrimmedIffCarried(members: seq<Member>)
    ensures AllTrimmed(members) == members <==> forall m | m in members :: Carried(m.name)
  {
    hide Trimmed, Carried;
    if members != [] {
      var m, rest := members[0], members[1..];
      assert members == [m] + rest;
      SameIffCarried(m);
      AllTrimmedIffCarried(rest);
      ConsEqual(Trimmed(m), AllTrimmed(rest), m, rest);
      assert AllTrimmed(members) == [Trimmed(m)] + AllTrimmed(rest);
      assert forall x :: x in members <==> x == m || x in rest;
    }
  }

  /** The round trip holds exactly for names that do not end in whitespace or a slash. */
  lemma RoundTrip(members: seq<Member>, decode: Decoder)
    requires DecodesAscii(decode)
    requires forall m | m in members :: |m.name| <= 16 && IsAscii(m.name) && |m.data| < Pow10(10)
    ensures forall m | m in members :: Printable(m)
    ensures Parsed(BuildAr(members), decode) == Ok(members) <==> forall m | m in members :: Carried(m.name)
  {
    forall m | m in members ensures Printable(m) {
      DecimalFits(|m.data|, 10, Pow10(10));
    }
    PrintedParses(members, decode);
    AllTrimmedIffCarried(members);
    assert BuildAr(members)[|AR_MAGIC|..] == BuildMembers(members);
  }

  // ---------------------------------------------------------------- what parsing means

  predicate AllDigits(s: string) {
    forall i | 0 <= i < |s| :: '0' <= s[i] <= '9'
  }

  function Value(s: string): nat
    requires AllDigits(s)
  {
    if s == [] then 0 else 10 * Value(s[..|s| - 1]) + (s[|s| - 1] as int - '0' as int)
  }

  predicate IsSlash(c: char) {
    c == '/'
  }

  /** `text` is `core` and then as many of the characters as there are at its end. */
  ghost predicate Stripped(text: string, core: string, strip: char -> bool) {
    && core <= text && (forall i | |core| <= i < |text| :: strip(text[i]))
    && (core != [] ==> !strip(core[|core| - 1]))
  }

  /** A name field: the name, then all trailing slashes, then white space. */
  ghost predicate NameField(text: string, name: string) {
    exists core :: Stripped(text, core, IsWhitespace) && Stripped(core, name, IsSlash)
  }

  /** A size field: at most one plus sign, at least one digit, then white space. */
  ghost predicate SizeField(text: string, size: nat) {
    exists core :: Stripped(text, core, IsWhitespace) && IsSize(core, size)
  }

  ghost predicate IsSize(core: string, size: nat) {
    var digits := if core != [] && core[0] == '+' then core[1..] else core;
    digits != [] && AllDigits(digits) && size == Value(digits)
  }

  lemma StrippedOneMore(front: string, last: char, core: string, strip: char -> bool)
    ensures Stripped(front + [last], core, strip) <==> if strip(last) then Stripped(front, core, strip) else core == front + [last]
  {
    var text := front + [last];
    assert text[|front|] == last && forall i | 0 <= i < |front| :: text[i] == front[i];
    if strip(last) {
      assert core <= front ==> core <= text;
      assert core <= text && core != text ==> core <= front;
    } else {
      assert core <= text && |core| == |text| ==> core == text;
    }
  }

  lemma {:induction false} TrimEndStrips(text: string, core: string)
    ensures Stripped(text, core, IsWhitespace) <==> TrimEnd(text) == core
  {
    if text != [] {
      var front, last := text[..|text| - 1], text[|text| - 1];
      assert text == front + [last];
      StrippedOneMore(front, last, core, IsWhitespace);
      if IsWhitespace(last) { TrimEndStrips(front, core); }
    }
  }

  lemma {:induction false} TrimSlashesStrips(text: string, core: string)
    ensures Stripped(text, core, IsSlash) <==> TrimSlashes(text) == core
  {
    if text != [] {
      var front, last := text[..|text| - 1], text[|text| - 1];
      assert text == front + [last];
      StrippedOneMore(front, last, core, IsSlash);
      if IsSlash(last) { TrimSlashesStrips(front, core); }
    }
  }

  lemma {:induction false} DigitsAreTheValue(s: string)
    ensures Digits(s) == if AllDigits(s) then Some(Value(s)) else None
  {
    if s != [] {
      var front := s[..|s| - 1];
      DigitsAreTheValue(front);
      assert AllDigits(s) <==> AllDigits(front) && IsDigit(s[|s| - 1]);
    }
  }

  lemma SizeIsRead(text: string, size: nat)
    ensures SizeField(text, size) <==> ParseUsize(TrimEnd(text)) == Some(size)
  {
    var core := TrimEnd(text);
    forall other ensures Stripped(text, other, IsWhitespace) <==> other == core { TrimEndStrips(text, other); }
    DigitsAreTheValue(if core != [] && core[0] == '+' then core[1..] else core);
    hide TrimEnd, Stripped, Digits, Value, AllDigits;
    assert IsSize(core, size) <==> ParseUsize(core) == Some(size);
  }

  lemma NameIsRead(text: string, name: string)
    ensures NameField(text, name) <==> TrimSlashes(TrimEnd(text)) == name
  {
    var core := TrimEnd(text);
    forall other ensures Stripped(text, other, IsWhitespace) <==> other == core { TrimEndStrips(text, other); }
    TrimSlashesStrips(core, name);
    hide TrimEnd, TrimSlashes, Stripped;
  }

  /** `body` starts with `member`; `rest` is what follows its data and the pad byte after odd data. */
  ghost predicate StartsWithMember(body: Bytes, member: Member, rest: Bytes, decode: Decoder) {
    && |body| >= 60 + |member.data| && body[58..60] == [0x60, 0x0A]
    && decode(body[0..16]).Some? && NameField(decode(body[0..16]).value, member.name)
    && decode(body[48..58]).Some? && SizeField(decode(body[48..58]).value, |member.data|)
    && var data := body[60..];
      member.data == data[..|member.data|]
      && rest == if |member.data| % 2 == 1 && |member.data| < |data| then data[|member.data| + 1..] else data[|member.data|..]
  }

  /** What is wrong with the first member of `body`. */
  ghost predicate StartsWithDefect(body: Bytes, e: ArError, decode: Decoder) {
    match e
    case BadMagic => false
    case TruncatedHeader => |body| < 60
    case BadMemberMagic => |body| >= 60 && body[58..60] != [0x60, 0x0A]
    case NonUtf8Name => |body| >= 60 && body[58..60] == [0x60, 0x0A] && decode(body[0..16]).None?
    case NonUtf8Size => HasName(body, decode) && decode(body[48..58]).None?
    case NonNumericSize =>
      HasName(body, decode) && decode(body[48..58]).Some? && forall n: nat :: !SizeField(decode(body[48..58]).value, n)
    case TruncatedData =>
      HasName(body, decode) && decode(body[48..58]).Some? && exists n: nat :: SizeField(decode(body[48..58]).value, n) && |body| < 60 + n
  }

  ghost predicate HasName(body: Bytes, decode: Decoder) {
    |body| >= 60 && body[58..60] == [0x60, 0x0A] && decode(body[0..16]).Some?
  }

  lemma OneMemberIsRead(body: Bytes, decode: Decoder)
    requires body != []
    ensures forall member, rest :: ParseMember(body, decode) == Ok((member, rest)) <==> StartsWithMember(body, member, rest, decode)
    ensures forall e :: ParseMember(body, decode) == Err(e) <==> StartsWithDefect(body, e, decode)
  {
    hide SizeField, NameField, ParseUsize, TrimEnd, TrimSlashes, StartsWithMember, StartsWithDefect;
    if |body| >= 60 {
      forall member, rest ensures ParseMember(body, decode) == Ok((member, rest)) <==> StartsWithMember(body, member, rest, decode) {
        MemberIsRead(body, member, rest, decode);
      }
    }
    forall e ensures ParseMember(body, decode) == Err(e) <==> StartsWithDefect(body, e, decode) {
      DefectIsFound(body, e, decode);
    }
    if |body| < 60 { TooShortForAMember(body, decode); }
  }

  lemma TooShortForAMember(body: Bytes, decode: Decoder)
    requires |body| < 60
    ensures forall member, rest :: !StartsWithMember(body, member, rest, decode)
  {
  }

  lemma MemberIsRead(body: Bytes, member: Member, rest: Bytes, decode: Decoder)
    requires |body| >= 60
    ensures ParseMember(body, decode) == Ok((member, rest)) <==> StartsWithMember(body, member, rest, decode)
  {
    hide SizeField, NameField, ParseUsize, TrimEnd, TrimSlashes;
    var header, data := body[..60], body[60..];
    assert header[58..60] == body[58..60] && header[0..16] == body[0..16] && header[48..58] == body[48..58];
    FieldsAreRead(body, decode);
    if HasName(body, decode) && decode(body[48..58]).Some? {
      var name := TrimSlashes(TrimEnd(decode(body[0..16]).value));
      match ParseUsize(TrimEnd(decode(body[48..58]).value))
      case None =>
      case Some(size) =>
        var next := if size % 2 == 1 && size < |data| then data[size + 1..] else if size <= |data| then data[size..] else [];
        assert ParseMember(body, decode) == if |data| < size then Err(TruncatedData) else Ok((Member(name, data[..size]), next));
        hide ParseMember;
        assert StartsWithMember(body, member, rest, decode) <==>
          size <= |data| && member == Member(name, data[..size]) && rest == next;
    }
  }

  lemma DefectIsFound(body: Bytes, e: ArError, decode: Decoder)
    requires body != []
    ensures ParseMember(body, decode) == Err(e) <==> StartsWithDefect(body, e, decode)
  {
    hide SizeField, NameField, ParseUsize, TrimEnd, TrimSlashes;
    if |body| >= 60 {
      var header := body[..60];
      assert header[58..60] == body[58..60] && header[0..16] == body[0..16] && header[48..58] == body[48..58];
      FieldsAreRead(body, decode);
    }
  }

  lemma FieldsAreRead(body: Bytes, decode: Decoder)
    requires |body| >= 60
    ensures decode(body[48..58]).Some? ==>
      var text := decode(body[48..58]).value;
      forall n: nat :: SizeField(text, n) <==> ParseUsize(TrimEnd(text)) == Some(n)
    ensures decode(body[0..16]).Some? ==>
      var text := decode(body[0..16]).value;
      forall name :: NameField(text, name) <==> TrimSlashes(TrimEnd(text)) == name
  {
    hide SizeField, NameField, ParseUsize, TrimEnd, TrimSlashes;
    if decode(body[48..58]).Some? {
      var text := decode(body[48..58]).value;
      forall n: nat ensures SizeField(text, n) <==> ParseUsize(TrimEnd(text)) == Some(n) { SizeIsRead(text, n); }
    }
    if decode(body[0..16]).Some? {
      var text := decode(body[0..16]).value;
      forall name ensures NameField(text, name) <==> TrimSlashes(TrimEnd(text)) == name { NameIsRead(text, name); }
    }
  }

  /** The body is a row of members, each with its data and padding. */
  ghost predicate IsArchive(body: Bytes, members: seq<Member>, decode: Decoder)
    decreases |body|
  {
    if body == [] then members == []
    else
      members != [] && exists rest ::
        |rest| < |body| && StartsWithMember(body, members[0], rest, decode) && IsArchive(rest, members[1..], decode)
  }

  /** Some members, and then one with a defect. */
  ghost predicate IsBroken(body: Bytes, e: ArError, decode: Decoder)
    decreases |body|
  {
    body != [] &&
    (|| StartsWithDefect(body, e, decode)
     || exists member, rest :: |rest| < |body| && StartsWithMember(body, member, rest, decode) && IsBroken(rest, e, decode))
  }

  /** The only member a body starts with is the first of its row. */
  lemma ArchiveUnfolds(body: Bytes, member: Member, rest: Bytes, decode: Decoder)
    requires body != [] && |rest| < |body|
    requires forall m, r :: StartsWithMember(body, m, r, decode) <==> (m, r) == (member, rest)
    requires forall e :: !StartsWithDefect(body, e, decode)
    ensures forall members :: IsArchive(body, members, decode) <==>
      members != [] && members[0] == member && IsArchive(rest, members[1..], decode)
    ensures forall e :: IsBroken(body, e, decode) <==> IsBroken(rest, e, decode)
  {
    hide StartsWithMember, StartsWithDefect;
    assert (member, rest).0 == member && (member, rest).1 == rest;
    assert StartsWithMember(body, member, rest, decode);
  }

  /** On every input: what is parsed is what the bytes are a row of, and the error is the first defect there is. */
  lemma {:induction false} ParsingReadsTheBytes(body: Bytes, decode: Decoder)
    ensures forall members :: ParseMembers(body, decode) == Ok(members) <==> IsArchive(body, members, decode)
    ensures forall e :: ParseMembers(body, decode) == Err(e) <==> IsBroken(body, e, decode)
    decreases |body|
  {
    if body != [] {
      OneMemberIsRead(body, decode);
      hide StartsWithMember, StartsWithDefect, ParseMember;
      match ParseMember(body, decode)
      case Err(_) =>
      case Ok((member, rest)) =>
        ParsingReadsTheBytes(rest, decode);
        ArchiveUnfolds(body, member, rest, decode);
        hide IsArchive, IsBroken;
        forall members ensures ParseMembers(body, decode) == Ok(members) <==> IsArchive(body, members, decode) {
          MembersUnfold(body, member, rest, members, decode);
        }
    }
  }

  lemma MembersUnfold(body: Bytes, member: Member, rest: Bytes, members: seq<Member>, decode: Decoder)
    requires body != [] && ParseMember(body, decode) == Ok((member, rest))
    ensures ParseMembers(body, decode) == Ok(members) <==>
      members != [] && members[0] == member && ParseMembers(rest, decode) == Ok(members[1..])
  {
    hide ParseMember;
    if members != [] { assert members == [members[0]] + members[1..]; }
    var parsed := ParseMembers(rest, decode);
    if parsed.Ok? { assert ([member] + parsed.value)[1..] == parsed.value; }
  }

  /** The same with the magic in front. */
  lemma ParsedReadsTheBytes(bytes: Bytes, decode: Decoder)
    ensures
      var magic := [0x21, 0x3C, 0x61, 0x72, 0x63, 0x68, 0x3E, 0x0A];
      && (forall members :: Parsed(bytes, decode) == Ok(members) <==> magic <= bytes && IsArchive(bytes[8..], members, decode))
      && (forall e :: Parsed(bytes, decode) == Err(e) <==>
            if magic <= bytes then IsBroken(bytes[8..], e, decode) else e == BadMagic)
  {
    if AR_MAGIC <= bytes { ParsingReadsTheBytes(bytes[8..], decode); }
    hide IsArchive, IsBroken, ParseMembers;
  }
}
