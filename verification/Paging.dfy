/** Long lists on cards: pages of five lines and the pager row that walks them. */
module Paging {

  const PAGE_SIZE := 5

  function ListPages(n: int): int {
    if n <= 0 then 1 else (n + PAGE_SIZE - 1) / PAGE_SIZE
  }

  function Min(a: int, b: int): int {
    if a < b then a else b
  }

  function PageSlice<T>(lines: seq<T>, page: int): seq<T> {
    if page < 0 then []
    else if page * PAGE_SIZE >= |lines| then []
    else lines[page * PAGE_SIZE..Min(page * PAGE_SIZE + PAGE_SIZE, |lines|)]
  }

  function Pages<T>(lines: seq<T>, count: nat): seq<T> {
    if count == 0 then [] else Pages(lines, count - 1) + PageSlice(lines, count - 1)
  }

  lemma {:induction false} PagesArePrefix<T>(lines: seq<T>, count: nat)
    requires count <= ListPages(|lines|)
    ensures Pages(lines, count) == lines[..Min(count * PAGE_SIZE, |lines|)]
  {
    if count > 0 {
      PagesArePrefix(lines, count - 1);
      var done := (count - 1) * PAGE_SIZE;
      if done < |lines| {
        assert lines[..done] + lines[done..Min(done + PAGE_SIZE, |lines|)] == lines[..Min(done + PAGE_SIZE, |lines|)];
      }
    }
  }

  /** The pages, in order, are the list, and none holds more than five lines; only an empty list has
      an empty page. */
  lemma PagesCoverList<T>(lines: seq<T>)
    ensures Pages(lines, ListPages(|lines|)) == lines
    ensures forall p :: |PageSlice(lines, p)| <= PAGE_SIZE
    ensures forall p | 0 <= p < ListPages(|lines|) && lines != [] :: PageSlice(lines, p) != []
  {
    PagesArePrefix(lines, ListPages(|lines|));
    assert lines[..|lines|] == lines;
  }
}
