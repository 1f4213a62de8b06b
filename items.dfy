// The list entries of the demo (tui/list.go): an item is a title and a
// description, and two fixed sequences of items feed the two lists.
module Items {

  /** item: a list entry; FilterValue is what list filtering matches on. */
  datatype Item = Item(title: string, desc: string) {
    function Title(): string { title }
    function Description(): string { desc }
    function FilterValue(): string { title }
  }

  /** The entries of the primary list, in display order. */
  const MainItems: seq<Item> := [
    Item("Raspberry Pi\U{2019}s", "I have \U{2019}em all over my house"),
    Item("Nutella", "It's good on toast"),
    Item("NNN", "It's good on toast"),
    Item("AAA", "It's good on toast"),
    Item("some", "It's good on toast")
  ]

  /** The entries of the child list, in display order. */
  const ChildItems: seq<Item> := [
    Item("Raspberry Pi\U{2019}s", "I have \U{2019}em all over my house"),
    Item("Nutella", "It's good on toast")
  ]

  /** Building an item and reading it back gives the parts unchanged. */
  lemma AccessorsReturnFields(title: string, desc: string)
    ensures Item(title, desc).Title() == title
    ensures Item(title, desc).Description() == desc
  {
  }

  /** Filtering matches on the title and on nothing else. */
  lemma FilterValueIsTitle(i: Item, j: Item)
    ensures i.FilterValue() == i.Title()
    ensures i.FilterValue() == j.FilterValue() <==> i.Title() == j.Title()
  {
  }

  /** The child list shows exactly the first two entries of the primary list. */
  lemma ChildItemsArePrimaryPrefix()
    ensures |MainItems| == 5 && |ChildItems| == 2
    ensures ChildItems == MainItems[..2]
  {
  }
}
