/**
 * The page requests the listing endpoints build from their query
 * parameters: the page index and page size are clamped, the sort column is
 * restricted to a fixed list and the direction is descending only when it
 * says so.
 */
module Paging {
  import opened Options
  import opened Text

  datatype Direction = Ascending | Descending

  datatype PageRequest = PageRequest(page: nat, size: nat, sortBy: string, direction: Direction)

  const MaxPageSize: nat := 100

  /** `Math.max(page, 0)`: a negative page index is the first page. */
  function SafePage(page: int): (r: nat)
    ensures page >= 0 ==> r == page
    ensures page < 0 ==> r == 0
  {
    if page < 0 then 0 else page
  }

  /** `Math.max(1, Math.min(size, 100))`: a size in [1, 100] is kept, anything else is the nearer bound. */
  function SafeSize(size: int): (r: nat)
    ensures 1 <= r <= MaxPageSize
    ensures 1 <= size <= MaxPageSize ==> r == size
    ensures size < 1 ==> r == 1
    ensures size > MaxPageSize ==> r == MaxPageSize
  {
    var capped := if size < MaxPageSize then size else MaxPageSize;
    if capped < 1 then 1 else capped
  }

  /** Clamping twice is clamping once, and a larger request never gets a smaller page. */
  lemma ClampsAreIdempotentAndMonotone(page: int, size: int, larger: int)
    requires size <= larger
    ensures SafePage(SafePage(page)) == SafePage(page)
    ensures SafeSize(SafeSize(size)) == SafeSize(size)
    ensures SafeSize(size) <= SafeSize(larger)
  {
  }

  /** The columns a booking listing may be sorted by. */
  const SortableColumns: set<string> :=
    {"id", "checkInDate", "checkOutDate", "totalAmount", "bookingStatus", "paymentStatus", "createdAt", "updatedAt"}

  /** `normalizeSortBy`: the trimmed column name when it is on the list, `id` otherwise. */
  function NormalizeSortBy(sortBy: Option<string>): (r: string)
    ensures r in SortableColumns
    ensures !IsBlank(sortBy) && Trim(sortBy.value) in SortableColumns ==> r == Trim(sortBy.value)
    ensures IsBlank(sortBy) || Trim(sortBy.value) !in SortableColumns ==> r == "id"
  {
    if IsBlank(sortBy) then "id"
    else
      var name := Trim(sortBy.value);
      if name in SortableColumns then name else "id"
  }

  /** A listed name with nothing to trim is kept as it is. */
  lemma ListedNameIsKept(name: string)
    requires name in SortableColumns && name != [] && !IsTrimmable(name[0]) && !IsTrimmable(name[|name| - 1])
    ensures NormalizeSortBy(Some(name)) == name
  {
    TrimKeepsTrimmed(name);
    assert !IsBlank(Some(name)) by {
      assert !IsTrimmable(name[0]);
    }
  }

  /** Every listed column is already normalized, so normalizing a normalized name changes nothing. */
  lemma NormalizeSortByIsIdempotent(sortBy: Option<string>)
    ensures NormalizeSortBy(Some(NormalizeSortBy(sortBy))) == NormalizeSortBy(sortBy)
  {
    if IsBlank(sortBy) || Trim(sortBy.value) !in SortableColumns {
      var id := "id";
      assert id in SortableColumns && !IsTrimmable(id[0]) && !IsTrimmable(id[1]);
      ListedNameIsKept(id);
    } else {
      var name := Trim(sortBy.value);
      NotBlankTrimsToSomething(sortBy.value);
      ListedNameIsKept(name);
    }
  }

  /** `"desc".equalsIgnoreCase(direction)`, on ASCII letters. */
  function DirectionOf(direction: Option<string>): (r: Direction)
    ensures r == Descending <==> direction.Some? && ToLower(direction.value) == "desc"
  {
    if direction.Some? && ToLower(direction.value) == "desc" then Descending else Ascending
  }

  /** Any capitalisation of `desc` sorts descending; a missing direction or `asc` sorts ascending. */
  lemma DirectionIgnoresCase()
    ensures DirectionOf(Some("DESC")) == Descending && DirectionOf(Some("Desc")) == Descending
    ensures DirectionOf(None) == Ascending && DirectionOf(Some("asc")) == Ascending
  {
    assert ToLower("DESC") == "desc";
    assert ToLower("Desc") == "desc";
    assert |ToLower("asc")| == 3;
  }

  /** `buildPageable`: the clamped page and size with the given column and direction. */
  function BuildPageable(page: int, size: int, sortBy: string, direction: Option<string>): (r: PageRequest)
    ensures 1 <= r.size <= MaxPageSize && r.sortBy == sortBy
    ensures (page >= 0 ==> r.page == page) && (1 <= size <= MaxPageSize ==> r.size == size)
  {
    PageRequest(SafePage(page), SafeSize(size), sortBy, DirectionOf(direction))
  }

  /** The notification inbox: newest first, clamped exactly as the listings clamp. */
  function NotificationPage(page: int, size: int): (r: PageRequest)
    ensures r == BuildPageable(page, size, "createdAt", Some("desc"))
    ensures r.direction == Descending && 1 <= r.size <= MaxPageSize
  {
    assert ToLower("desc") == "desc";
    PageRequest(SafePage(page), SafeSize(size), "createdAt", Descending)
  }
}
