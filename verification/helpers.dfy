/**
 * The records of the nearby-helpers screen: helper records as the backend returns them,
 * the help-category table and the default search radius.
 */
module Helpers {
  import opened Wrappers
  import opened Js

  /**
   * One element of the `/api/helpers-nearby` response. `location` and `help_categories`
   * may be absent; a present location may still hold a missing or zero coordinate.
   */
  datatype Helper = Helper(
    id: string,
    name: string,
    role: string,
    location: Option<Coord>,
    helpCategories: Option<seq<string>>,
    distance: Num)

  /** An entry of the help-category table (the source calls the caption `label`). */
  datatype CategoryInfo = CategoryInfo(value: string, caption: string, icon: string)

  /** The category filter's options; `all` is the first and means "no category". */
  const HelpCategories: seq<CategoryInfo> := [
    CategoryInfo("all", "Todas as categorias", "🌐"),
    CategoryInfo("food", "Alimentação", "🍽️"),
    CategoryInfo("legal", "Jurídico", "⚖️"),
    CategoryInfo("health", "Saúde", "🏥"),
    CategoryInfo("housing", "Moradia", "🏠"),
    CategoryInfo("work", "Emprego", "💼"),
    CategoryInfo("education", "Educação", "📚"),
    CategoryInfo("social", "Apoio Social", "🤝"),
    CategoryInfo("clothes", "Roupas", "👕"),
    CategoryInfo("furniture", "Móveis", "🪑"),
    CategoryInfo("transport", "Transporte", "🚗")
  ]

  const AllCategories := "all"

  /** The icon of a category value that is not in the table. */
  const UnknownCategoryIcon := "📝"

  const DefaultRadius: nat := 10

  /** The first entry of `table` whose value is `v` (`Array.prototype.find`). */
  function FindCategory(table: seq<CategoryInfo>, v: string): (r: Option<CategoryInfo>)
    ensures r.Some? ==> r.value in table && r.value.value == v
    ensures r.None? <==> forall i :: 0 <= i < |table| ==> table[i].value != v
  {
    if |table| == 0 then None
    else if table[0].value == v then Some(table[0])
    else FindCategory(table[1..], v)
  }

  predicate IsCategoryValue(v: string) {
    exists i :: 0 <= i < |HelpCategories| && HelpCategories[i].value == v
  }

  /**
   * The table entry of a category value, or an entry captioned with the value itself and
   * the unknown-category icon. The source's fallback object has no `value` field; the
   * model fills it with the value, which nothing reads.
   */
  function GetCategoryInfo(v: string): (r: CategoryInfo)
    ensures IsCategoryValue(v) ==> r in HelpCategories && r.value == v
    ensures !IsCategoryValue(v) ==> r.caption == v && r.icon == UnknownCategoryIcon
  {
    FindCategory(HelpCategories, v).GetOr(CategoryInfo(v, v, UnknownCategoryIcon))
  }

  /** Category values in the table are distinct, so the entry found for a value is the only one. */
  lemma CategoryValuesDistinct()
    ensures forall i, j :: 0 <= i < j < |HelpCategories| ==> HelpCategories[i].value != HelpCategories[j].value
  {
  }

  /** A helper is placed on the map when its location exists with truthy `lat` and `lng`. */
  predicate HasMapLocation(h: Helper) {
    h.location.Some? && Truthy(h.location.value.lat) && Truthy(h.location.value.lng)
  }
}
