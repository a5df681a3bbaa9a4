/**
 * The pagination contract shared by every list endpoint: reject page
 * numbers or sizes below 1, count the table, and return the rows at offset
 * (pageNumber - 1) * pageSize, at most pageSize of them, together with
 * ceil(totalRecords / pageSize) pages.
 */
module Pagination {
  import opened Common

  const InvalidPageMessage := "Page number and page size must be greater than 0."

  /** The anonymous `paginationResponse` object every list endpoint returns. */
  datatype Envelope<T> = Envelope(
    totalRecords: int,
    pageNumber: int,
    pageSize: int,
    totalPages: int,
    data: seq<T>)

  function Min(a: int, b: int): int
  {
    if a <= b then a else b
  }

  /**
   * `(int)Math.Ceiling(totalRecords / (double)pageSize)`, on integers.
   * The result is the least number of pages of pageSize rows that hold
   * totalRecords rows.
   */
  function TotalPages(totalRecords: nat, pageSize: int): (pages: nat)
    requires pageSize >= 1
    ensures pages * pageSize >= totalRecords
    ensures (pages - 1) * pageSize < totalRecords || pages == 0
  {
    (totalRecords + pageSize - 1) / pageSize
  }

  /** `rows.Skip(offset).Take(count)`. */
  function Window<T>(rows: seq<T>, offset: nat, count: nat): (w: seq<T>)
    ensures |w| == if offset >= |rows| then 0 else Min(count, |rows| - offset)
    ensures forall k :: 0 <= k < |w| ==> offset + k < |rows| && w[k] == rows[offset + k]
  {
    if offset >= |rows| then []
    else rows[offset .. offset + Min(count, |rows| - offset)]
  }

  /**
   * What a page is, independently of how it is computed: the envelope
   * echoes the request, counts totalRecords, has the ceiling number of
   * pages, and its data are the rows from the page's offset on, as many
   * as fit in one page.
   */
  ghost predicate IsPage<T>(e: Envelope<T>, totalRecords: nat, rows: seq<T>, pageNumber: int, pageSize: int)
  {
    && pageNumber >= 1 && pageSize >= 1
    && e.totalRecords == totalRecords
    && e.pageNumber == pageNumber && e.pageSize == pageSize
    && 0 <= e.totalPages
    && e.totalPages * pageSize >= totalRecords
    && (e.totalPages == 0 || (e.totalPages - 1) * pageSize < totalRecords)
    && var offset := (pageNumber - 1) * pageSize;
       && |e.data| <= pageSize
       && (|e.data| < pageSize ==> offset + |e.data| >= |rows|)
       && forall k :: 0 <= k < |e.data| ==> offset + k < |rows| && e.data[k] == rows[offset + k]
  }

  /**
   * One list request. `totalRecords` is passed apart from `rows` because
   * the endpoints count one table and slice another only by accident
   * (see the customer listing).
   */
  function Paginate<T>(totalRecords: nat, rows: seq<T>, pageNumber: int, pageSize: int): (r: Result<Envelope<T>, string>)
    ensures r.Failure? <==> pageNumber < 1 || pageSize < 1
    ensures r.Failure? ==> r.error == InvalidPageMessage
    ensures r.Success? ==> IsPage(r.value, totalRecords, rows, pageNumber, pageSize)
  {
    if pageNumber < 1 || pageSize < 1 then Failure(InvalidPageMessage)
    else
      Success(Envelope(totalRecords, pageNumber, pageSize,
                       TotalPages(totalRecords, pageSize),
                       Window(rows, (pageNumber - 1) * pageSize, pageSize)))
  }

  /**
   * A list endpoint: 400 with `{ message }` when paging is refused,
   * otherwise 200 with the pagination envelope.
   */
  function ListResponse<T>(totalRecords: nat, rows: seq<T>, pageNumber: int, pageSize: int): (r: Response<Envelope<T>>)
    ensures r.Ok? || r.BadRequest?
    ensures r.BadRequest? <==> pageNumber < 1 || pageSize < 1
    ensures r.BadRequest? ==> r.message == InvalidPageMessage
    ensures r.Ok? ==> IsPage(r.body, totalRecords, rows, pageNumber, pageSize)
  {
    match Paginate(totalRecords, rows, pageNumber, pageSize)
    case Failure(m) => BadRequest(m)
    case Success(e) => Ok(e)
  }

  lemma MulMono(a: int, b: int, s: nat)
    requires a <= b
    ensures a * s <= b * s
  {
  }

  /**
   * On a table of n rows, a page is empty exactly when its number is past
   * the last page, ceil(n / pageSize).
   */
  lemma BeyondLastPageIsEmpty<T>(rows: seq<T>, pageNumber: int, pageSize: int)
    requires pageNumber >= 1 && pageSize >= 1
    ensures Paginate(|rows|, rows, pageNumber, pageSize).Success?
    ensures var e := Paginate(|rows|, rows, pageNumber, pageSize).value;
      e.data == [] <==> pageNumber > e.totalPages
  {
    var e := Paginate(|rows|, rows, pageNumber, pageSize).value;
    var t := e.totalPages;
    if pageNumber > t {
      MulMono(t, pageNumber - 1, pageSize);
    } else {
      MulMono(pageNumber - 1, t - 1, pageSize);
    }
  }

  /** The data of pages 1 .. count, as the listing returns them, concatenated in page order. */
  function FirstPages<T>(rows: seq<T>, pageSize: int, count: nat): seq<T>
    requires pageSize >= 1
  {
    if count == 0 then []
    else FirstPages(rows, pageSize, count - 1) + Paginate(|rows|, rows, count, pageSize).value.data
  }

  lemma MulSucc(count: int, pageSize: int)
    ensures count * pageSize == (count - 1) * pageSize + pageSize
  {
  }

  /** The prefix up to an offset, followed by the window there, is the prefix up to the window's end. */
  lemma WindowExtendsPrefix<T>(rows: seq<T>, offset: nat, count: nat)
    ensures rows[..Min(offset, |rows|)] + Window(rows, offset, count) == rows[..Min(offset + count, |rows|)]
  {
    if offset < |rows| {
      assert rows[..offset] + rows[offset..Min(offset + count, |rows|)] == rows[..Min(offset + count, |rows|)];
    }
  }

  lemma {:induction false} FirstPagesArePrefix<T>(rows: seq<T>, pageSize: int, count: nat)
    requires pageSize >= 1
    ensures FirstPages(rows, pageSize, count) == rows[..Min(count * pageSize, |rows|)]
  {
    if count > 0 {
      FirstPagesArePrefix(rows, pageSize, count - 1);
      var offset := (count - 1) * pageSize;
      MulMono(0, count - 1, pageSize);
      MulSucc(count, pageSize);
      WindowExtendsPrefix(rows, offset, pageSize);
    }
  }

  /**
   * Reading pages 1 .. totalPages in order returns every row of the table
   * exactly once and in order.
   */
  lemma PagesCoverTable<T>(rows: seq<T>, pageSize: int)
    requires pageSize >= 1
    ensures FirstPages(rows, pageSize, TotalPages(|rows|, pageSize)) == rows
  {
    FirstPagesArePrefix(rows, pageSize, TotalPages(|rows|, pageSize));
  }

  /** C#'s unchecked 32-bit `int` arithmetic: wrap into [-2^31, 2^31). */
  function Wrap32(x: int): (w: int)
    ensures -0x8000_0000 <= w < 0x8000_0000
    ensures (w - x) % 0x1_0000_0000 == 0
  {
    var m := x % 0x1_0000_0000;
    if m >= 0x8000_0000 then m - 0x1_0000_0000 else m
  }

  /**
   * The data the source actually fetches: the offset
   * `(pageNumber - 1) * pageSize` is computed in 32-bit `int`, and wraps.
   * A negative wrapped offset is refused by the store (None here).
   */
  function Int32Window<T>(rows: seq<T>, pageNumber: int, pageSize: int): (r: Option<seq<T>>)
    requires 1 <= pageNumber < 0x8000_0000 && 1 <= pageSize < 0x8000_0000
    ensures (pageNumber - 1) * pageSize < 0x8000_0000 ==>
      r == Some(Paginate(|rows|, rows, pageNumber, pageSize).value.data)
  {
    var product := (pageNumber - 1) * pageSize;
    MulMono(0, pageNumber - 1, pageSize);
    var offset := Wrap32(product);
    assert product < 0x8000_0000 ==> offset == product;
    if offset < 0 then None else Some(Window(rows, offset, pageSize))
  }

  /**
   * Page 65537 of size 65536 lies far past the end of a one-row table, so
   * its data must be empty; the 32-bit offset wraps to 0 and the source
   * returns the first page instead.
   */
  lemma Int32OffsetWraps<T>(x: T)
    ensures Paginate(1, [x], 65537, 65536).value.data == []
    ensures Int32Window([x], 65537, 65536) == Some([x])
  {
    assert (65537 - 1) * 65536 == 0x1_0000_0000;
    assert Wrap32(0x1_0000_0000) == 0;
    assert Window([x], 0, 65536) == [x];
  }
}
