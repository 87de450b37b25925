// Offset cursors in 64-bit arithmetic: decode_cursor and paginate of
// src/server.cpp, and the walk a client makes with them.
module Pagination {
  import opened Wrappers
  import opened Json
  import opened Decimal

  newtype uint64 = x: int | 0 <= x < 0x1_0000_0000_0000_0000

  const MAX: uint64 := 0xFFFF_FFFF_FFFF_FFFF

  // -------------------------------------------------------- the cursor

  /** What a cursor means: digits only, at most twenty, and in range. */
  predicate IsCursor(s: string) {
    |s| <= 20 && AllDigits(s) && NumberOf(s) < TWO_64
  }

  /** The strict decoder. Every operation on uint64 is checked not to wrap: the
      guard before the multiplication is what makes them safe, and it refuses only
      what would. */
  method DecodeCursor(cursor: Option<string>) returns (r: Result<uint64>)
    ensures cursor.None? || cursor.value == "" ==> r == Ok(0)
    ensures cursor.Some? && cursor.value != "" ==>
      if IsCursor(cursor.value) then r.Ok? && r.value as int == NumberOf(cursor.value)
      else r == Err(Coded(INVALID_PARAMS))
  {
    if cursor.None? || cursor.value == "" {
      return Ok(0);
    }
    var s := cursor.value;
    if |s| > 20 {
      return Err(Coded(INVALID_PARAMS));
    }
    var value: uint64 := 0;
    for i := 0 to |s|
      invariant AllDigits(s[..i])
      invariant value as int == NumberOf(s[..i])
    {
      if s[i] < '0' || s[i] > '9' {
        return Err(Coded(INVALID_PARAMS));
      }
      assert s[..i + 1][..i] == s[..i];
      assert AllDigits(s[..i + 1]);
      var digit := (s[i] as int - '0' as int) as uint64;
      if value > (MAX - digit) / 10 {
        assert NumberOf(s[..i + 1]) >= TWO_64;
        if AllDigits(s) {
          ValuePrefix(s, i + 1);
        }
        return Err(Coded(INVALID_PARAMS));
      }
      value := value * 10 + digit;
    }
    assert s[..|s|] == s;
    return Ok(value);
  }

  /** What the server prints it accepts, and reads back as the same offset. */
  lemma PrintedCursor(n: nat)
    ensures IsCursor(ToString(n)) <==> n < TWO_64
    ensures AllDigits(ToString(n)) && NumberOf(ToString(n)) == n
  {
    DigitsValue(n);
    if n < TWO_64 {
      TwentyDigits();
      DigitsLength(n, 20);
    }
  }

  lemma TwentyDigits()
    ensures TWO_64 <= Power10(20)
  {
    assert Power10(4) == 10_000;
    assert Power10(8) == 10_000 * Power10(4);
    assert Power10(12) == 10_000 * Power10(8);
    assert Power10(16) == 10_000 * Power10(12);
    assert Power10(20) == 10_000 * Power10(16);
  }

  // ---------------------------------------------------------- one page

  datatype Page<T> = Page(items: seq<T>, next: Option<string>)

  /** offset + page_size as std::size_t computes it. */
  function Sum64(a: nat, b: nat): nat {
    (a + b) % TWO_64
  }

  /** paginate: None where the sum has wrapped to before the offset, so that the
      slice would end before it begins. */
  function Paginate<T>(items: seq<T>, offset: nat, pageSize: nat): Option<Page<T>> {
    if offset >= |items| then Some(Page([], None))
    else if pageSize == 0 || Sum64(offset, pageSize) >= |items| then Some(Page(items[offset..], None))
    else if Sum64(offset, pageSize) < offset then None
    else
      var next := Sum64(offset, pageSize);
      Some(Page(items[offset..next], Some(ToString(next))))
  }

  /** Every offset a client may send gives a well-formed slice if and only if the
      size and the page size together stay within 64 bits. */
  lemma SlicesWellFormed<T>(items: seq<T>, pageSize: nat)
    requires 0 < |items| < TWO_64 && pageSize < TWO_64
    ensures (forall offset: nat :: offset < TWO_64 ==> Paginate(items, offset, pageSize).Some?)
      <==> |items| + pageSize <= TWO_64
  {
    if |items| + pageSize <= TWO_64 {
      forall offset: nat | offset < |items| ensures Sum64(offset, pageSize) == offset + pageSize {
      }
    } else {
      var last := |items| - 1;
      assert Sum64(last, pageSize) == last + pageSize - TWO_64;
      assert Paginate(items, last, pageSize).None?;
    }
  }

  /** How long a page is, and when there is another. */
  lemma PageLength<T>(items: seq<T>, offset: nat, pageSize: nat)
    requires offset < |items| && |items| + pageSize <= TWO_64
    ensures var page, left := Paginate(items, offset, pageSize), |items| - offset;
      && page.Some?
      && page.value.items == items[offset..offset + |page.value.items|]
      && |page.value.items| == (if pageSize == 0 || left < pageSize then left else pageSize)
      && (page.value.next.Some? <==> 0 < pageSize < left)
      && (page.value.next.Some? ==> page.value.next.value == ToString(offset + pageSize))
  {
    assert pageSize > 0 && offset + pageSize < TWO_64 ==> Sum64(offset, pageSize) == offset + pageSize;
  }

  // ---------------------------------------------------------- the walk

  /** The items a client collects from an offset on, each page's cursor decoded
      for the next call. */
  function Walk<T>(items: seq<T>, offset: nat, pageSize: nat): (all: seq<T>)
    requires |items| + pageSize <= TWO_64
    requires offset < TWO_64
    decreases |items| - offset
  {
    var page := Paginate(items, offset, pageSize);
    if page.None? then []
    else if page.value.next.None? then page.value.items
    else
      PrintedCursor(Sum64(offset, pageSize));
      page.value.items + Walk(items, NumberOf(page.value.next.value), pageSize)
  }

  /** From the empty cursor the pages concatenate to exactly the list; each page
      leaves less to walk. */
  lemma {:induction false} WalkComplete<T>(items: seq<T>, offset: nat, pageSize: nat)
    requires |items| + pageSize <= TWO_64 && offset < TWO_64
    ensures Walk(items, offset, pageSize) == if offset >= |items| then [] else items[offset..]
    decreases |items| - offset
  {
    if offset < |items| {
      var next := offset + pageSize;
      assert Sum64(offset, pageSize) == next;
      if pageSize == 0 || next >= |items| {
        assert Paginate(items, offset, pageSize) == Some(Page(items[offset..], None));
      } else {
        assert Paginate(items, offset, pageSize) == Some(Page(items[offset..next], Some(ToString(next))));
        PrintedCursor(next);
        WalkComplete(items, next, pageSize);
        assert items[offset..] == items[offset..next] + items[next..];
      }
    }
  }
}
