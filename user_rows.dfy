/** The user-management table's row numbering. */
module UserRows {
  import opened Text

  const DefaultPageSize: int := 20

  datatype UserManagementDto = UserManagementDto(id: int, username: string, email: string, role: string, rank: string)

  datatype UserManagementRow = UserManagementRow(order: int, id: int, username: string, email: string,
                                                 role: string, rank: string)

  /** `mapUserDtoToRowProps`, with the page size defaulting to 20 when not
      given. */
  function MapUserDtoToRowProps(user: UserManagementDto, index: int, page: int, pageSize: Option<int>): (row: UserManagementRow)
    ensures row.order == page * pageSize.GetOr(DefaultPageSize) + index + 1
    ensures row.id == user.id && row.username == user.username && row.email == user.email
    ensures row.role == user.role && row.rank == user.rank
  {
    UserManagementRow(page * pageSize.GetOr(DefaultPageSize) + index + 1, user.id, user.username, user.email,
                      user.role, user.rank)
  }

  /** Within a page, consecutive rows get consecutive numbers, and rows on
      different pages never share a number; the first row of page `p` is
      numbered `p·size + 1`. */
  lemma OrdersAreDistinct(u: UserManagementDto, v: UserManagementDto, i: int, j: int, p: int, q: int, size: Option<int>)
    requires size.GetOr(DefaultPageSize) > 0
    requires 0 <= i < size.GetOr(DefaultPageSize) && 0 <= j < size.GetOr(DefaultPageSize)
    ensures MapUserDtoToRowProps(u, i, p, size).order == MapUserDtoToRowProps(v, j, q, size).order <==> i == j && p == q
    ensures i + 1 < size.GetOr(DefaultPageSize) ==>
      MapUserDtoToRowProps(v, i + 1, p, size).order == MapUserDtoToRowProps(u, i, p, size).order + 1
  {
    var n := size.GetOr(DefaultPageSize);
    if p * n + i == q * n + j {
      SamePosition(n, i, j, p, q);
    }
  }

  /** Two positions `p·n + i` and `q·n + j` with in-page offsets coincide
      only when the pages and the offsets do. */
  lemma SamePosition(n: int, i: int, j: int, p: int, q: int)
    requires n > 0 && 0 <= i < n && 0 <= j < n
    requires p * n + i == q * n + j
    ensures p == q && i == j
  {
    if p != q {
      var d := if p < q then q - p else p - q;
      AtLeastOnce(d, n);
    }
  }

  lemma AtLeastOnce(d: int, n: int)
    requires d >= 1 && n > 0
    ensures d * n >= n
  {
    assert d * n == (d - 1) * n + n;
  }
}
