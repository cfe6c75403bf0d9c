/** The Previous/Next control under the transactions table and its
    "Showing a to b of n entries" caption, as expressions of its props. */
module Pagination {

  function Min(a: int, b: int): int
  {
    if a <= b then a else b
  }

  /** One button: the page it requests when clicked, and whether it is disabled. */
  datatype Button = Button(target: int, disabled: bool)

  /** What the control renders for its props. */
  datatype View = View(first: int, last: int, total: int, previous: Button, next: Button)

  function Previous(currentPage: int): Button
  {
    Button(currentPage - 1, currentPage <= 1)
  }

  function Next(currentPage: int, totalPages: int): Button
  {
    Button(currentPage + 1, currentPage >= totalPages)
  }

  function Render(currentPage: int, totalPages: int, totalItems: int, startIndex: int, endIndex: int): (v: View)
    // while the current page is in range, every enabled button requests a page in range
    ensures 1 <= currentPage <= totalPages ==>
              (!v.previous.disabled ==> 1 <= v.previous.target <= totalPages) &&
              (!v.next.disabled ==> 1 <= v.next.target <= totalPages)
    // the first page cannot go back and the last page cannot go forward
    ensures v.previous.disabled <==> currentPage <= 1
    ensures v.next.disabled <==> currentPage >= totalPages
    // a single page disables both buttons
    ensures currentPage == totalPages == 1 ==> v.previous.disabled && v.next.disabled
    // the caption stays inside the item count when the window starts inside it
    ensures 0 <= startIndex < totalItems && startIndex < endIndex ==>
              1 <= v.first <= v.last <= v.total == totalItems
  {
    View(startIndex + 1, Min(endIndex, totalItems), totalItems, Previous(currentPage), Next(currentPage, totalPages))
  }
}
