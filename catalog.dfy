/** The host application's catalog browser entry (harlequin's `CatalogItem`). */
module Catalog {

  /**
   * One entry of the displayed hierarchy: catalogs, databases, tables and columns are all
   * `CatalogItem`s. `children` is empty for a column.
   */
  datatype CatalogItem = CatalogItem(
    qualifiedIdentifier: string,
    queryName: string,
    displayLabel: string,
    typeLabel: string,
    children: seq<CatalogItem>)

  /**
   * Every child's qualified identifier is its parent's, a dot, and the child's own display label,
   * all the way down: the identifier is the dot-joined path from the root.
   */
  ghost predicate PathsExtend(item: CatalogItem)
    decreases item
  {
    forall child | child in item.children ::
      && child.qualifiedIdentifier == item.qualifiedIdentifier + "." + child.displayLabel
      && PathsExtend(child)
  }
}
