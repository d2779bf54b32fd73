/**
 * A page of the PDF plot dialog: its number, its paper size (US letter,
 * upright or turned), the page's size in inches and the size of its
 * on-screen preview, which keeps the page's proportions and fits in a
 * 400-unit square.
 *
 * Change notifications are modelled as the list of property names the page
 * raises itself; those raised by the base class's `SetValue` are not part
 * of this model.
 */
module PdfPages {
  import opened Wrappers
  import opened Decimal

  datatype PdfPageSize = Portrait | Landscape

  /** The size of the longer side of the preview. */
  const MaxPreviewSize: real := 400.0

  /** `ViewWidth`: 8.5 inches upright, 11 turned. */
  function PageWidth(size: PdfPageSize): (w: real)
    ensures size == Portrait ==> w == 8.5
    ensures size != Portrait ==> w == 11.0
  {
    if size == Portrait then 8.5 else 11.0
  }

  /** `ViewHeight`: 11 inches upright, 8.5 turned. */
  function PageHeight(size: PdfPageSize): (h: real)
    ensures size == Portrait ==> h == 11.0
    ensures size != Portrait ==> h == 8.5
  {
    if size == Portrait then 11.0 else 8.5
  }

  /** Turning the page swaps its width and height. */
  lemma TurningSwapsSides()
    ensures PageWidth(Landscape) == PageHeight(Portrait) && PageHeight(Landscape) == PageWidth(Portrait)
  {
  }

  function Max(a: real, b: real): (m: real)
    ensures m >= a && m >= b && (m == a || m == b)
  {
    if a >= b then a else b
  }

  /** `PreviewWidth`: positive, at most the preview size, and the full preview size when the page is wider than tall. */
  function PreviewWidth(size: PdfPageSize): (r: real)
    ensures 0.0 < r <= MaxPreviewSize
    ensures PageWidth(size) >= PageHeight(size) ==> r == MaxPreviewSize
  {
    var m := Max(PageWidth(size), PageHeight(size));
    assert m == 11.0;
    (PageWidth(size) / m) * MaxPreviewSize
  }

  /** `PreviewHeight`: positive, at most the preview size, and the full preview size when the page is taller than wide. */
  function PreviewHeight(size: PdfPageSize): (r: real)
    ensures 0.0 < r <= MaxPreviewSize
    ensures PageHeight(size) >= PageWidth(size) ==> r == MaxPreviewSize
  {
    var m := Max(PageWidth(size), PageHeight(size));
    assert m == 11.0;
    (PageHeight(size) / m) * MaxPreviewSize
  }

  /**
   * The preview fits the page into the preview square: its longer side is
   * exactly `MaxPreviewSize`, both sides lie in (0, MaxPreviewSize], and it
   * has the page's proportions.
   */
  lemma PreviewFits(size: PdfPageSize)
    ensures Max(PreviewWidth(size), PreviewHeight(size)) == MaxPreviewSize
    ensures 0.0 < PreviewWidth(size) <= MaxPreviewSize && 0.0 < PreviewHeight(size) <= MaxPreviewSize
    ensures PreviewWidth(size) * PageHeight(size) == PreviewHeight(size) * PageWidth(size)
  {
    var w, h := PageWidth(size), PageHeight(size);
    var m := Max(w, h);
    assert m > 0.0;
    assert PreviewWidth(size) == w / m * MaxPreviewSize;
    assert PreviewHeight(size) == h / m * MaxPreviewSize;
    if size == Portrait {
      assert m == 11.0;
      assert PreviewHeight(size) == MaxPreviewSize;
    } else {
      assert m == 11.0;
      assert PreviewWidth(size) == MaxPreviewSize;
    }
  }

  /** `PageName`: "Page " and the page number in decimal, from which the number reads back. */
  function PageNameOf(pageNumber: int): (s: string)
    ensures |s| > 5 && s[..5] == "Page "
    ensures ParseInt(s[5..]) == Some(pageNumber)
  {
    IntToStringRoundTrip(pageNumber);
    var s := "Page " + IntToString(pageNumber);
    assert s[5..] == IntToString(pageNumber);
    s
  }

  /** `AvailablePageSizes`: upright first, then turned. */
  function AvailablePageSizes(): (sizes: seq<PdfPageSize>)
    ensures |sizes| == 2 && sizes[0] == Portrait && sizes[1] == Landscape
    ensures forall size: PdfPageSize :: size in sizes
  {
    var sizes := [Portrait, Landscape];
    assert forall size: PdfPageSize :: size in sizes by {
      forall size: PdfPageSize ensures size in sizes {
        if size.Portrait? { assert sizes[0] == size; } else { assert sizes[1] == size; }
      }
    }
    sizes
  }

  class PdfPageViewModel {
    var pageNumber: int
    var pageSize: PdfPageSize
    /** The property-changed notifications raised so far, by property name. */
    var notifications: seq<string>

    /** A new page starts upright, and says so for every size-dependent property. */
    constructor()
      ensures pageSize == Portrait && pageNumber == 0
      ensures notifications == ["ViewWidth", "ViewHeight", "PreviewWidth", "PreviewHeight", "ViewPort"]
    {
      pageNumber := 0;
      pageSize := Portrait;
      notifications := [];
      new;
      SetPageSize(Portrait);
    }

    function ViewWidth(): real
      reads this
    {
      PageWidth(pageSize)
    }

    function ViewHeight(): real
      reads this
    {
      PageHeight(pageSize)
    }

    function PreviewWidthOfPage(): real
      reads this
    {
      PreviewWidth(pageSize)
    }

    function PreviewHeightOfPage(): real
      reads this
    {
      PreviewHeight(pageSize)
    }

    function PageName(): string
      reads this
    {
      PageNameOf(pageNumber)
    }

    /** The `PageNumber` setter: stores the number and announces the name. */
    method SetPageNumber(value: int)
      modifies this
      ensures pageNumber == value && pageSize == old(pageSize)
      ensures notifications == old(notifications) + ["PageName"]
    {
      pageNumber := value;
      notifications := notifications + ["PageName"];
    }

    /** The `PageSize` setter: stores the size and announces every property that depends on it. */
    method SetPageSize(value: PdfPageSize)
      modifies this
      ensures pageSize == value && pageNumber == old(pageNumber)
      ensures notifications == old(notifications) + ["ViewWidth", "ViewHeight", "PreviewWidth", "PreviewHeight", "ViewPort"]
    {
      pageSize := value;
      notifications := notifications + ["ViewWidth", "ViewHeight", "PreviewWidth", "PreviewHeight", "ViewPort"];
    }
  }
}
