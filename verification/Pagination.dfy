/** Offset pagination as the listing endpoint does it: 32-bit offsets, skip, take. */
module Pagination {

  const U32_LIMIT: nat := 0x1_0000_0000

  type u32 = n: nat | n < U32_LIMIT

  /** How many rows the requested page lies after the first; page 0 counts as page 1. */
  function RowsBefore(page: u32, perPage: u32): nat {
    (if page == 0 then 0 else page - 1) * perPage
  }

  /** The offset as computed: a 32-bit product that wraps around. */
  function Offset(page: u32, perPage: u32): u32 {
    RowsBefore(page, perPage) % U32_LIMIT
  }

  function Window<T>(list: seq<T>, offset: nat, size: nat): (r: seq<T>)
    ensures |r| <= size
  {
    if offset >= |list| then []
    else if offset + size >= |list| then list[offset..]
    else list[offset..offset + size]
  }

  function PageOf<T>(list: seq<T>, page: u32, perPage: u32): seq<T> {
    Window(list, Offset(page, perPage), perPage)
  }

  lemma PageAt<T>(list: seq<T>, page: u32, perPage: u32, i: nat)
    requires i < |PageOf(list, page, perPage)|
    ensures Offset(page, perPage) + i < |list| && PageOf(list, page, perPage)[i] == list[Offset(page, perPage) + i]
  {
  }

  /** Pages 1 to `n`, one after the other. */
  function PagesUpTo<T>(list: seq<T>, perPage: u32, n: u32): seq<T> {
    if n == 0 then [] else PagesUpTo(list, perPage, n - 1) + PageOf(list, n, perPage)
  }

  function LengthsUpTo<T>(list: seq<T>, perPage: u32, n: u32): nat {
    if n == 0 then 0 else LengthsUpTo(list, perPage, n - 1) + |PageOf(list, n, perPage)|
  }

  function Prefix<T>(list: seq<T>, size: nat): seq<T> {
    if size >= |list| then list else list[..size]
  }

  lemma WindowExtendsPrefix<T>(list: seq<T>, before: nat, size: nat)
    ensures Prefix(list, before) + Window(list, before, size) == Prefix(list, before + size)
  {
  }

  lemma NextPageStart(page: u32, perPage: u32)
    requires page > 0
    ensures RowsBefore(page, perPage) + perPage == page * perPage
    ensures page > 1 ==> RowsBefore(page - 1, perPage) <= RowsBefore(page, perPage)
  {
    assert (page - 1) * perPage + perPage == page * perPage;
    if page > 1 {
      assert (page - 1) * perPage == (page - 2) * perPage + perPage;
    }
  }

  /**
   * Past 32 bits the offset wraps: the page shown is the one the remainder
   * points at. The offset is the true one exactly while it fits. There is no
   * page 0: it shows page 1.
   */
  lemma OffsetIsTrueIffItFits(page: u32, perPage: u32)
    ensures page > 0 ==>
      && (Offset(page, perPage) == (page - 1) * perPage <==> (page - 1) * perPage < 0x1_0000_0000)
      && ((page - 1) * perPage - Offset(page, perPage)) % 0x1_0000_0000 == 0 <= Offset(page, perPage) < 0x1_0000_0000
    ensures page == 0 ==> Offset(page, perPage) == 0
  {
    if page > 0 {
      var rows := (page - 1) * perPage;
      assert rows - rows % U32_LIMIT == rows / U32_LIMIT * U32_LIMIT;
    }
  }

  /** While offsets fit in 32 bits, the first `n` pages are the first n * perPage rows. */
  lemma {:induction false} PagesTile<T>(list: seq<T>, perPage: u32, n: u32)
    requires RowsBefore(n, perPage) < U32_LIMIT
    ensures PagesUpTo(list, perPage, n) == Prefix(list, n * perPage)
    ensures LengthsUpTo(list, perPage, n) == |Prefix(list, n * perPage)|
  {
    if n > 0 {
      var before := RowsBefore(n, perPage);
      NextPageStart(n, perPage);
      assert PagesUpTo(list, perPage, n - 1) == Prefix(list, before)
          && LengthsUpTo(list, perPage, n - 1) == |Prefix(list, before)| by {
        PagesTile(list, perPage, n - 1);
        assert (n - 1) * perPage == before;
      }
      assert PageOf(list, n, perPage) == Window(list, before, perPage) by {
        OffsetIsTrueIffItFits(n, perPage);
      }
      WindowExtendsPrefix(list, before, perPage);
    }
  }

  /** A page far past the end shows the first page again. */
  lemma WrappedPageRepeatsTheFirst<T>(list: seq<T>)
    requires |list| > 0
    ensures PageOf(list, 0x400_0001, 64) == PageOf(list, 1, 64) && PageOf(list, 1, 64) != []
  {
    assert RowsBefore(0x400_0001, 64) == U32_LIMIT;
  }
}
