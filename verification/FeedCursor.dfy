/** Pagination cursors of the feed and the arithmetic of its pages. */
module FeedCursors {
  import opened Outcomes
  import opened MachineInts
  import opened Scoring
  import Text

  type I64 = n: int | -0x8000_0000_0000_0000 <= n <= 0x7FFF_FFFF_FFFF_FFFF

  // ----- Decimal and hexadecimal text -----

  function IntToString(i: int): string {
    if i < 0 then "-" + Text.NatToString(-i) else Text.NatToString(i)
  }

  /** {:x} of an unsigned number. */
  function Hex(n: nat): (s: string)
    ensures s != [] && forall c <- s :: '0' <= c <= '9' || 'a' <= c <= 'f'
  {
    var d := n % 16;
    var last := if d < 10 then Text.Digit(d) else ('a' as int + d - 10) as char;
    (if n < 16 then [] else Hex(n / 16)) + [last]
  }

  function DigitsValue(s: string): Option<nat> {
    if s == [] then Some(0)
    else
      var last := s[|s| - 1];
      var before := DigitsValue(s[..|s| - 1]);
      if before.None? || !('0' <= last <= '9') then None
      else Some(before.value * 10 + (last as int - '0' as int))
  }

  function Magnitude(s: string): Option<nat> {
    if s == [] then None else DigitsValue(s)
  }

  /** str::parse of an unsigned 64-bit number: one leading plus sign is accepted. */
  function ParseU64(s: string): Option<U64> {
    var n := Magnitude(if s != [] && s[0] == '+' then s[1..] else s);
    if n.Some? && n.value <= U64_MAX then Some(n.value) else None
  }

  /** str::parse of a signed 64-bit number. */
  function ParseI64(s: string): Option<I64> {
    var n := Magnitude(if s != [] && s[0] in "+-" then s[1..] else s);
    if n.None? then None
    else
      var i: int := if s[0] == '-' then -(n.value as int) else n.value;
      if I64_MIN <= i <= I64_MAX then Some(i) else None
  }

  // ----- Fields between colons -----

  function Split(s: string): (parts: seq<string>)
    ensures parts != []
  {
    if s == [] then [""]
    else if s[0] == ':' then [""] + Split(s[1..])
    else
      var rest := Split(s[1..]);
      [[s[0]] + rest[0]] + rest[1..]
  }

  function Join(parts: seq<string>): string
    requires parts != []
  {
    if |parts| == 1 then parts[0] else parts[0] + ":" + Join(parts[1..])
  }

  function Field(parts: seq<string>, i: nat): Option<string> {
    if i < |parts| then Some(parts[i]) else None
  }

  function Parsed<T>(field: Option<string>, parse: string -> Option<T>): Option<T> {
    if field.None? then None else parse(field.value)
  }

  // ----- Cursors -----

  datatype CursorKey = CursorKey(section: FeedSection, snapshotMs: I64, context: string, revision: U64)

  datatype CursorError = Invalid | Stale

  function SectionName(s: FeedSection): string {
    match s
    case RecentRelease => "recent_release"
    case Upcoming => "upcoming"
    case PopularLegacy => "popular_legacy"
    case ClassicLegacy => "classic_legacy"
  }

  function CursorFields(key: CursorKey, offset: U64): seq<string> {
    ["v2", SectionName(key.section), IntToString(key.snapshotMs), key.context,
     Text.NatToString(key.revision), Text.NatToString(offset)]
  }

  function EncodeCursor(key: CursorKey, offset: U64): string {
    Join(CursorFields(key, offset))
  }

  function DecodeFields(parts: seq<string>, expected: CursorKey): Result<U64, CursorError> {
    if Field(parts, 0) == Some("v1") then Err(Stale)
    else
      var snapshot := Parsed(Field(parts, 2), ParseI64);
      var context := Field(parts, 3);
      var revision := Parsed(Field(parts, 4), ParseU64);
      var offset := Parsed(Field(parts, 5), ParseU64);
      if || Field(parts, 0) != Some("v2")
         || Field(parts, 1) != Some(SectionName(expected.section))
         || snapshot.None? || context.None? || revision.None? || offset.None?
         || Field(parts, 6).Some?
      then Err(Invalid)
      else if || snapshot != Some(expected.snapshotMs)
              || context != Some(expected.context)
              || revision != Some(expected.revision)
      then Err(Stale)
      else Ok(offset.value)
  }

  function DecodeCursor(cursor: Option<string>, expected: CursorKey): Result<U64, CursorError> {
    match cursor
    case None => Ok(0)
    case Some(text) => DecodeFields(Split(text), expected)
  }

  // ----- Pages -----

  datatype FeedPage<T> = FeedPage(items: seq<T>, nextCursor: Option<string>, total: nat, limit: nat, offset: U64) {
    function Page(): U64
      requires limit > 0
    {
      (offset / limit + 1) % U64_RANGE
    }

    function TotalPages(): nat
      requires limit > 0
    {
      CeilDiv(total, limit)
    }
  }

  datatype FeedError = BadLimit | BadPage | BadCursor | CursorIsStale

  function Skip<T>(s: seq<T>, n: nat): seq<T> {
    if n <= |s| then s[n..] else []
  }

  function Take<T>(s: seq<T>, n: nat): seq<T> {
    if n <= |s| then s[..n] else s
  }

  /** How the cursors of one query are written and read, and where its page numbers lead. */
  datatype Codec = Codec(
    encode: U64 -> string,
    decode: Option<string> -> Result<U64, CursorError>,
    start: (nat, nat) -> U64)

  function CodecOf(key: CursorKey): Codec {
    Codec(
      (offset: U64) => EncodeCursor(key, offset),
      (cursor: Option<string>) => DecodeCursor(cursor, key),
      (page: nat, limit: nat) => PageOffset(page, limit))
  }

  function CeilDiv(n: nat, d: nat): nat
    requires d > 0
  {
    (n + d - 1) / d
  }

  /** The offset of a page number; the multiplication saturates. */
  function PageOffset(page: nat, limit: nat): U64 {
    Min(SaturatingSub(page, 1) * limit, U64_MAX)
  }

  function PageAt<T>(ranked: seq<T>, encode: U64 -> string, limit: nat, offset: U64): FeedPage<T>
    requires limit > 0
  {
    var next := Min(offset + limit, U64_MAX);
    FeedPage(
      Take(Skip(ranked, offset), limit),
      if next < |ranked| then Some(encode(next)) else None,
      |ranked|,
      limit,
      offset)
  }

  function ServePage<T>(ranked: seq<T>, codec: Codec, limit: int, page: Option<I64>, cursor: Option<string>)
    : Result<FeedPage<T>, FeedError>
  {
    if !(1 <= limit <= 100) then Err(BadLimit)
    else if page.Some? then
      if page.value < 1 then Err(BadPage) else Ok(PageAt(ranked, codec.encode, limit, codec.start(page.value, limit)))
    else
      match codec.decode(cursor)
      case Err(Invalid) => Err(BadCursor)
      case Err(Stale) => Err(CursorIsStale)
      case Ok(offset) => Ok(PageAt(ranked, codec.encode, limit, offset))
  }

  function GetFeed<T>(ranked: seq<T>, key: CursorKey, limit: int, page: Option<I64>, cursor: Option<string>)
    : Result<FeedPage<T>, FeedError>
  {
    ServePage(ranked, CodecOf(key), limit, page, cursor)
  }

  // ----- Round trip -----

  lemma {:induction false} DigitsOfNat(n: nat)
    ensures DigitsValue(Text.NatToString(n)) == Some(n)
  {
    if n >= 10 {
      var s := Text.NatToString(n);
      DigitsOfNat(n / 10);
      assert s[..|s| - 1] == Text.NatToString(n / 10);
    } else {
      assert Text.NatToString(n)[..0] == [];
    }
  }

  lemma NumbersRoundTrip(i: I64, n: U64)
    ensures ParseI64(IntToString(i)) == Some(i)
    ensures ParseU64(Text.NatToString(n)) == Some(n)
  {
    DigitsOfNat(n);
    var size: nat := if i < 0 then -(i as int) else i;
    var digits := Text.NatToString(size);
    DigitsOfNat(size);
    assert digits[0] in digits && '0' <= digits[0] <= '9';
    assert Text.NatToString(n)[0] in Text.NatToString(n);
    if i < 0 {
      assert IntToString(i)[1..] == digits;
    }
  }

  lemma {:induction false} SplitAtColon(a: string, b: string)
    requires ':' !in a
    ensures Split(a + ":" + b) == [a] + Split(b)
  {
    var s := a + ":" + b;
    if a == [] {
      assert s[1..] == b;
    } else {
      SplitAtColon(a[1..], b);
      assert s[1..] == a[1..] + ":" + b;
      assert a == [a[0]] + a[1..];
    }
  }

  lemma {:induction false} SplitWhole(a: string)
    requires ':' !in a
    ensures Split(a) == [a]
  {
    if a != [] {
      SplitWhole(a[1..]);
      assert a == [a[0]] + a[1..];
    }
  }

  lemma {:induction false} SplitUndoesJoin(parts: seq<string>)
    requires parts != [] && forall p <- parts :: ':' !in p
    ensures Split(Join(parts)) == parts
  {
    if |parts| == 1 {
      SplitWhole(parts[0]);
    } else {
      SplitUndoesJoin(parts[1..]);
      SplitAtColon(parts[0], Join(parts[1..]));
    }
  }

  lemma {:induction false} SplitTwice(a: string, b: string)
    ensures |Split(a + ":" + b)| == |Split(a)| + |Split(b)|
  {
    var s := a + ":" + b;
    if a == [] {
      assert s[1..] == b;
    } else {
      SplitTwice(a[1..], b);
      assert s[1..] == a[1..] + ":" + b;
    }
  }

  lemma {:induction false} ColonsMakeFields(a: string)
    requires ':' in a
    ensures |Split(a)| >= 2
  {
    if a[0] != ':' {
      ColonsMakeFields(a[1..]);
    }
  }

  /** Splitting a joined text again yields at least one field for every part. */
  lemma {:induction false} JoinedFields(parts: seq<string>, i: nat)
    requires i < |parts|
    ensures |Split(Join(parts))| >= |parts|
    ensures ':' in parts[i] ==> |Split(Join(parts))| > |parts|
  {
    if ':' in parts[i] {
      ColonsMakeFields(parts[i]);
    }
    if |parts| > 1 {
      SplitTwice(parts[0], Join(parts[1..]));
      JoinedFields(parts[1..], if i == 0 then 0 else i - 1);
    }
  }

  lemma NamesAreDistinct(a: FeedSection, b: FeedSection)
    ensures SectionName(a) == SectionName(b) ==> a == b
    ensures ':' !in SectionName(a)
  {
  }

  lemma NumbersHaveNoColon(i: int, n: nat)
    ensures ':' !in IntToString(i) && ':' !in Text.NatToString(n)
  {
  }

  lemma IssuedFields(issued: CursorKey, expected: CursorKey, offset: U64)
    ensures DecodeFields(CursorFields(issued, offset), expected) ==
              if issued.section != expected.section then Err(Invalid)
              else if issued != expected then Err(Stale)
              else Ok(offset)
  {
    NumbersRoundTrip(issued.snapshotMs, issued.revision);
    NumbersRoundTrip(issued.snapshotMs, offset);
    NamesAreDistinct(issued.section, expected.section);
    assert CursorFields(issued, offset)[0] == "v2" != "v1";
  }

  /**
    What an issued cursor decodes to, for every pair of keys. It comes back unchanged under
    its own key, it is stale when the same section has moved on, and it is invalid in another
    section; a context that itself holds a colon makes every cursor unreadable.
   */
  lemma CursorRoundTrip(issued: CursorKey, expected: CursorKey, offset: U64)
    ensures DecodeCursor(Some(EncodeCursor(issued, offset)), expected) ==
              if ':' in issued.context || issued.section != expected.section then Err(Invalid)
              else if issued != expected then Err(Stale)
              else Ok(offset)
  {
    var parts := CursorFields(issued, offset);
    NumbersHaveNoColon(issued.snapshotMs, issued.revision);
    NumbersHaveNoColon(issued.snapshotMs, offset);
    NamesAreDistinct(issued.section, expected.section);
    if ':' in issued.context {
      JoinedFields(parts, 3);
      SplitAtColon("v2", Join(parts[1..]));
    } else {
      SplitUndoesJoin(parts);
      IssuedFields(issued, expected, offset);
    }
  }

  /** The context is the hexadecimal text of a hash, so it never spoils a cursor. */
  lemma HashedContextsRoundTrip(key: CursorKey, hash: U64, offset: U64)
    requires key.context == Hex(hash)
    ensures DecodeCursor(Some(EncodeCursor(key, offset)), key) == Ok(offset)
  {
    CursorRoundTrip(key, key, offset);
  }

  /** Cursors of the first format are stale whatever follows. */
  lemma FirstFormatIsStale(rest: string, key: CursorKey)
    ensures DecodeCursor(Some("v1:" + rest), key) == Err(Stale)
  {
    assert "v1:" + rest == "v1" + ":" + rest;
    SplitAtColon("v1", rest);
  }

  // ----- Following the cursors -----

  /** What the walk along the cursors needs to know of them. */
  ghost predicate Faithful(codec: Codec) {
    && codec.decode(None) == Ok(0)
    && (forall offset: U64 :: codec.decode(Some(codec.encode(offset))) == Ok(offset))
    && (forall limit :: codec.start(1, limit) == 0)
    && (forall page, next, limit :: 0 < page && next == page + 1 && codec.start(page, limit) + limit < U64_MAX ==>
          codec.start(next, limit) == codec.start(page, limit) + limit)
  }

  ghost function Ahead(codec: Codec, total: nat, cursor: Option<string>): nat {
    var at := codec.decode(cursor);
    if at.Ok? && at.value < total then total - at.value else 0
  }

  /** Every page that a client gets which follows next_cursor until there is none. */
  ghost function Crawl<T>(ranked: seq<T>, codec: Codec, limit: nat, cursor: Option<string>)
    : Result<seq<FeedPage<T>>, FeedError>
    requires Faithful(codec) && 1 <= limit <= 100 && |ranked| < U64_MAX
    decreases Ahead(codec, |ranked|, cursor)
  {
    match ServePage(ranked, codec, limit, None, cursor)
    case Err(e) => Err(e)
    case Ok(page) =>
      if page.nextCursor.None? then Ok([page])
      else
        match Crawl(ranked, codec, limit, page.nextCursor)
        case Err(e) => Err(e)
        case Ok(more) => Ok([page] + more)
  }

  function Gathered<T>(pages: seq<FeedPage<T>>): seq<T> {
    if pages == [] then [] else pages[0].items + Gathered(pages[1..])
  }

  lemma Distribute(q: int, k: int, d: int)
    ensures (q + k) * d == q * d + k * d
  {
  }

  lemma AtLeastOnce(k: int, d: int)
    requires k >= 1 && d >= 0
    ensures k * d >= d
  {
    Distribute(1, k - 1, d);
  }

  lemma SameQuotient(d: int, p: int, s: int, q: int, r: int)
    requires p * d + s == q * d + r && 0 <= s < d && 0 <= r < d
    ensures p <= q
  {
    if p > q {
      Distribute(q, p - q, d);
      AtLeastOnce(p - q, d);
    }
  }

  lemma QuotientIsUnique(a: nat, d: nat, q: nat, r: nat)
    requires d > 0 && a == q * d + r && r < d
    ensures a / d == q
  {
    SameQuotient(d, a / d, a % d, q, r);
    SameQuotient(d, q, r, a / d, a % d);
  }

  lemma CeilDivStep(n: nat, d: nat)
    requires 0 < d < n
    ensures CeilDiv(n, d) == 1 + CeilDiv(n - d, d)
  {
    var a := n - 1;
    QuotientIsUnique(a + d, d, a / d + 1, a % d);
  }

  lemma CeilDivLast(n: nat, d: nat)
    requires 0 < n <= d
    ensures CeilDiv(n, d) == 1
  {
    QuotientIsUnique(n + d - 1, d, 1, n - 1);
  }

  lemma NextPage(page: nat, limit: nat)
    requires page > 0 && PageOffset(page, limit) + limit < U64_MAX
    ensures PageOffset(page + 1, limit) == PageOffset(page, limit) + limit
  {
    Distribute(page - 1, 1, limit);
  }

  /** How many pages of `limit` hold `n` entries; an empty list still has a page. */
  function PageCount(n: nat, limit: nat): nat
    requires limit > 0
  {
    if n <= limit then 1 else 1 + PageCount(n - limit, limit)
  }

  lemma {:induction false} PageCountIsCeilDiv(n: nat, limit: nat)
    requires limit > 0
    ensures PageCount(n, limit) == Max(1, CeilDiv(n, limit))
    decreases n
  {
    if n > limit {
      CeilDivStep(n, limit);
      PageCountIsCeilDiv(n - limit, limit);
      CeilDivIsPositive(n - limit, limit);
    } else if n > 0 {
      CeilDivLast(n, limit);
    } else {
      QuotientIsUnique(limit - 1, limit, 0, limit - 1);
    }
  }

  lemma {:induction false} CeilDivIsPositive(n: nat, d: nat)
    requires n > 0 && d > 0
    ensures CeilDiv(n, d) >= 1
  {
    if n > d {
      CeilDivStep(n, d);
    } else {
      CeilDivLast(n, d);
    }
  }

  /** The pages are what asking for the numbers from `page` on gets. */
  ghost predicate Numbered<T>(ranked: seq<T>, codec: Codec, limit: nat, page: nat, pages: seq<FeedPage<T>>) {
    forall k | 0 <= k < |pages| && page + k <= I64_MAX ::
      Ok(pages[k]) == ServePage(ranked, codec, limit, Some(page + k), None)
  }

  lemma NumberedOn<T>(ranked: seq<T>, codec: Codec, limit: nat, page: nat, first: FeedPage<T>, more: seq<FeedPage<T>>)
    requires Numbered(ranked, codec, limit, page + 1, more)
    requires page <= I64_MAX ==> Ok(first) == ServePage(ranked, codec, limit, Some(page), None)
    ensures Numbered(ranked, codec, limit, page, [first] + more)
  {
    var pages := [first] + more;
    forall k | 0 <= k < |pages| && page + k <= I64_MAX
      ensures Ok(pages[k]) == ServePage(ranked, codec, limit, Some(page + k), None)
    {
      if k > 0 {
        assert pages[k] == more[k - 1];
        assert page + k == page + 1 + (k - 1);
      }
    }
  }

  lemma GatheredOn<T>(ranked: seq<T>, encode: U64 -> string, limit: nat, offset: U64, more: seq<FeedPage<T>>)
    requires limit > 0 && offset + limit <= |ranked|
    requires Gathered(more) == ranked[offset + limit..]
    ensures Gathered([PageAt(ranked, encode, limit, offset)] + more) == ranked[offset..]
  {
    var first := PageAt(ranked, encode, limit, offset);
    assert ([first] + more)[1..] == more;
    assert ranked[offset..] == first.items + ranked[offset + limit..];
  }

  /** The pages gather what is left from `offset` on, the first of them being number `page`. */
  ghost predicate Delivers<T>(ranked: seq<T>, codec: Codec, limit: nat, page: nat, offset: nat, pages: seq<FeedPage<T>>)
    requires limit > 0 && offset <= |ranked|
  {
    && Gathered(pages) == ranked[offset..]
    && |pages| == PageCount(|ranked| - offset, limit)
    && AllSay(|ranked|, limit, pages)
    && Numbered(ranked, codec, limit, page, pages)
  }

  ghost predicate AllSay<T>(total: nat, limit: nat, pages: seq<FeedPage<T>>) {
    forall p <- pages :: p.total == total && p.limit == limit && p.offset <= total
  }

  lemma OneMoreSays<T>(total: nat, limit: nat, first: FeedPage<T>, more: seq<FeedPage<T>>)
    requires AllSay(total, limit, more) && AllSay(total, limit, [first])
    ensures AllSay(total, limit, [first] + more)
  {
    forall p <- [first] + more ensures p.total == total && p.limit == limit && p.offset <= total {
      assert p in [first] || p in more;
    }
  }

  lemma NumbersMore<T>(ranked: seq<T>, codec: Codec, limit: nat, page: nat, offset: U64, more: seq<FeedPage<T>>)
    requires 1 <= limit <= 100 && page > 0 && offset + limit < |ranked| && codec.start(page, limit) == offset
    requires Numbered(ranked, codec, limit, page + 1, more)
    ensures Numbered(ranked, codec, limit, page, [PageAt(ranked, codec.encode, limit, offset)] + more)
  {
    ServesByNumber(ranked, codec, limit, page, offset);
    NumberedOn(ranked, codec, limit, page, PageAt(ranked, codec.encode, limit, offset), more);
  }

  lemma SaysMore<T>(ranked: seq<T>, codec: Codec, limit: nat, offset: U64, more: seq<FeedPage<T>>)
    requires 0 < limit && offset <= |ranked| && AllSay(|ranked|, limit, more)
    ensures AllSay(|ranked|, limit, [PageAt(ranked, codec.encode, limit, offset)] + more)
  {
    OneMoreSays(|ranked|, limit, PageAt(ranked, codec.encode, limit, offset), more);
  }

  lemma DeliversMore<T>(ranked: seq<T>, codec: Codec, limit: nat, page: nat, offset: U64, more: seq<FeedPage<T>>)
    requires 1 <= limit <= 100 && page > 0 && offset + limit < |ranked| && codec.start(page, limit) == offset
    requires Delivers(ranked, codec, limit, page + 1, offset + limit, more)
    ensures Delivers(ranked, codec, limit, page, offset, [PageAt(ranked, codec.encode, limit, offset)] + more)
  {
    GatheredOn(ranked, codec.encode, limit, offset, more);
    CountsOneMore(|ranked| - offset, limit);
    SaysMore(ranked, codec, limit, offset, more);
    NumbersMore(ranked, codec, limit, page, offset, more);
  }

  lemma CountsOneMore(n: nat, limit: nat)
    requires 0 < limit < n
    ensures PageCount(n, limit) == 1 + PageCount(n - limit, limit)
  {
  }

  lemma ServesByNumber<T>(ranked: seq<T>, codec: Codec, limit: nat, page: nat, offset: U64)
    requires 1 <= limit <= 100 && page > 0 && offset <= |ranked| && codec.start(page, limit) == offset
    ensures page <= I64_MAX ==>
              Ok(PageAt(ranked, codec.encode, limit, offset)) == ServePage(ranked, codec, limit, Some(page), None)
  {
  }

  lemma DeliversLast<T>(ranked: seq<T>, codec: Codec, limit: nat, page: nat, offset: U64)
    requires 1 <= limit <= 100 && page > 0 && offset <= |ranked| <= offset + limit && codec.start(page, limit) == offset
    ensures Delivers(ranked, codec, limit, page, offset, [PageAt(ranked, codec.encode, limit, offset)])
  {
    var last := PageAt(ranked, codec.encode, limit, offset);
    assert Gathered([last]) == last.items + Gathered([]);
    ServesByNumber(ranked, codec, limit, page, offset);
    NumberedOn(ranked, codec, limit, page, last, []);
    assert [last] + [] == [last];
  }

  lemma {:induction false} CrawlsFromPage<T>(ranked: seq<T>, codec: Codec, limit: nat, cursor: Option<string>,
                                             page: nat, offset: U64)
    requires Faithful(codec) && 1 <= limit <= 100 && page > 0 && offset <= |ranked| < U64_MAX
    requires codec.decode(cursor) == Ok(offset) && codec.start(page, limit) == offset
    ensures Crawl(ranked, codec, limit, cursor).Ok?
    ensures Delivers(ranked, codec, limit, page, offset, Crawl(ranked, codec, limit, cursor).value)
    decreases |ranked| - offset
  {
    var next := offset + limit;
    if next < |ranked| {
      var rest := Some(codec.encode(next));
      CrawlsFromPage(ranked, codec, limit, rest, page + 1, next);
      DeliversMore(ranked, codec, limit, page, offset, Crawl(ranked, codec, limit, rest).value);
    } else {
      DeliversLast(ranked, codec, limit, page, offset);
    }
  }

  lemma IssuedCursorsAreFaithful(key: CursorKey)
    requires ':' !in key.context
    ensures Faithful(CodecOf(key))
  {
    forall page: nat, limit: nat | page > 0 && PageOffset(page, limit) + limit < U64_MAX
      ensures PageOffset(page + 1, limit) == PageOffset(page, limit) + limit
    {
      NextPage(page, limit);
    }
    forall offset: U64 ensures CodecOf(key).decode(Some(CodecOf(key).encode(offset))) == Ok(offset) {
      CursorRoundTrip(key, key, offset);
    }
  }

  /** A page that was asked for by number says that number. */
  lemma PageSaysItsNumber<T>(ranked: seq<T>, key: CursorKey, limit: nat, k: nat)
    requires 1 <= limit <= 100 && k < I64_MAX && |ranked| < U64_MAX
    requires PageOffset(k + 1, limit) <= |ranked|
    ensures GetFeed(ranked, key, limit, Some(k + 1), None).Ok?
    ensures GetFeed(ranked, key, limit, Some(k + 1), None).value.Page() == k + 1
  {
    QuotientIsUnique(k * limit, limit, k, 0);
  }

  ghost predicate DeliversEverything<T>(ranked: seq<T>, key: CursorKey, limit: nat, pages: seq<FeedPage<T>>)
    requires 1 <= limit <= 100
  {
    && Gathered(pages) == ranked
    && (forall p <- pages :: p.limit == limit && |pages| == Max(1, p.TotalPages()))
    && forall k | 0 <= k < |pages| && k < I64_MAX ::
         pages[k].limit == limit && pages[k].Page() == k + 1
         && Ok(pages[k]) == GetFeed(ranked, key, limit, Some(k + 1), None)
  }

  lemma NumberedPage<T>(ranked: seq<T>, key: CursorKey, limit: nat, k: nat, page: FeedPage<T>)
    requires 1 <= limit <= 100 && k < I64_MAX && |ranked| < U64_MAX
    requires page.limit == limit && page.offset <= |ranked|
    requires Ok(page) == ServePage(ranked, CodecOf(key), limit, Some(1 + k), None)
    ensures page.Page() == k + 1 && Ok(page) == GetFeed(ranked, key, limit, Some(k + 1), None)
  {
    assert 1 + k == k + 1;
    PageSaysItsNumber(ranked, key, limit, k);
  }

  lemma DeliveredIsEverything<T>(ranked: seq<T>, key: CursorKey, limit: nat, pages: seq<FeedPage<T>>)
    requires 1 <= limit <= 100 && |ranked| < U64_MAX
    requires Delivers(ranked, CodecOf(key), limit, 1, 0, pages)
    ensures DeliversEverything(ranked, key, limit, pages)
  {
    PageCountIsCeilDiv(|ranked|, limit);
    forall k | 0 <= k < |pages| && k < I64_MAX
      ensures pages[k].limit == limit && pages[k].Page() == k + 1
      ensures Ok(pages[k]) == GetFeed(ranked, key, limit, Some(k + 1), None)
    {
      assert pages[k] in pages;
      NumberedPage(ranked, key, limit, k, pages[k]);
    }
  }

  /**
    Following next_cursor from the start delivers the whole ranked list, each entry once and
    in order, in as many pages as total_pages announces (one blank page for an empty list);
    the k-th of them says that it is page k and is what asking for that number gets.
   */
  lemma CrawlDeliversEverything<T>(ranked: seq<T>, key: CursorKey, limit: nat)
    requires ':' !in key.context && 1 <= limit <= 100 && |ranked| < U64_MAX
    ensures Faithful(CodecOf(key))
    ensures var r := Crawl(ranked, CodecOf(key), limit, None);
            r.Ok? && DeliversEverything(ranked, key, limit, r.value)
  {
    IssuedCursorsAreFaithful(key);
    CrawlsFromPage(ranked, CodecOf(key), limit, None, 1, 0);
    DeliveredIsEverything(ranked, key, limit, Crawl(ranked, CodecOf(key), limit, None).value);
  }

  // ----- What a client is answered -----

  /** The entries from `start` on, as many as fit, and a cursor exactly if some are left. */
  ghost predicate IsPage<T>(ranked: seq<T>, key: CursorKey, limit: nat, start: nat, p: FeedPage<T>)
    requires |ranked| < U64_MAX
  {
    && p.limit == limit && p.total == |ranked| && p.offset == start
    && |p.items| == Min(limit, SaturatingSub(|ranked|, start))
    && (forall k | 0 <= k < |p.items| :: p.items[k] == ranked[start + k])
    && p.nextCursor == if start + limit < |ranked| then Some(EncodeCursor(key, start + limit)) else None
  }

  ghost predicate Serves<T>(ranked: seq<T>, key: CursorKey, limit: nat, start: nat, r: Result<FeedPage<T>, FeedError>)
    requires |ranked| < U64_MAX
  {
    r.Ok? && IsPage(ranked, key, limit, start, r.value)
  }

  lemma PageAtIsPage<T>(ranked: seq<T>, key: CursorKey, limit: nat, start: U64)
    requires 1 <= limit <= 100 && |ranked| < U64_MAX
    ensures IsPage(ranked, key, limit, start, PageAt(ranked, CodecOf(key).encode, limit, start))
  {
  }

  /** A page number is served from its place on, whatever the cursor says; only numbers from one up are. */
  lemma NumbersAreServed<T>(ranked: seq<T>, key: CursorKey, limit: int, page: I64, cursor: Option<string>)
    requires |ranked| < U64_MAX
    ensures var r := GetFeed(ranked, key, limit, Some(page), cursor);
            if limit < 1 || limit > 100 then r == Err(BadLimit)
            else if page < 1 then r == Err(BadPage)
            else Serves(ranked, key, limit, Min((page - 1) * limit, U64_MAX), r)
  {
    if 1 <= limit <= 100 && page >= 1 {
      PageAtIsPage(ranked, key, limit, PageOffset(page, limit));
    }
  }

  /**
    An issued cursor is served from its offset on if nothing has changed since; it is refused as
    outdated when the snapshot, the preferences or the votes of its section have moved on, and as
    a bad request when it belongs to another section or its context cannot be read.
   */
  lemma CursorsAreServed<T>(ranked: seq<T>, issued: CursorKey, key: CursorKey, offset: U64, limit: int)
    requires |ranked| < U64_MAX && 1 <= limit <= 100
    ensures var r := GetFeed(ranked, key, limit, None, Some(EncodeCursor(issued, offset)));
            if ':' in issued.context || issued.section != key.section then r == Err(BadCursor)
            else if issued.snapshotMs != key.snapshotMs || issued.context != key.context
                    || issued.revision != key.revision
            then r == Err(CursorIsStale)
            else Serves(ranked, key, limit, offset, r)
  {
    CursorRoundTrip(issued, key, offset);
    PageAtIsPage(ranked, key, limit, offset);
  }

  /** No cursor means the start; a first-format cursor is outdated; and a text without fields is a bad request. */
  lemma OtherCursorsAreServed<T>(ranked: seq<T>, key: CursorKey, limit: int, text: string)
    requires |ranked| < U64_MAX && 1 <= limit <= 100
    ensures Serves(ranked, key, limit, 0, GetFeed(ranked, key, limit, None, None))
    ensures GetFeed(ranked, key, limit, None, Some("v1:" + text)) == Err(CursorIsStale)
    ensures ':' !in text && text != "v1" ==> GetFeed(ranked, key, limit, None, Some(text)) == Err(BadCursor)
  {
    PageAtIsPage(ranked, key, limit, 0);
    FirstFormatIsStale(text, key);
    if ':' !in text {
      SplitWhole(text);
    }
  }
}
