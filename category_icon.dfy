/** The fixed table of how each spending category is shown, and the lookup
    by key that falls back to the "other" entry. */
module CategoryIcon {
  import opened Prelude
  import opened ExpenseContext

  /** The icon components of the table. */
  datatype Icon = Utensils | Car | Music | ShoppingBag | Heart | ThreeDots

  datatype CategoryConfig = CategoryConfig(icon: Icon, color: string, bgColor: string, name: string)

  /** `categoryConfig`; the class names are built from the category key. */
  function ConfigOf(c: Category): (r: CategoryConfig)
    ensures r.color == "text-category-" + c.Key()
    ensures r.bgColor == "bg-category-" + c.Key()
  {
    match c
    case Food => CategoryConfig(Utensils, "text-category-food", "bg-category-food", "Food & Dining")
    case Transport => CategoryConfig(Car, "text-category-transport", "bg-category-transport", "Transportation")
    case Entertainment => CategoryConfig(Music, "text-category-entertainment", "bg-category-entertainment", "Entertainment")
    case Shopping => CategoryConfig(ShoppingBag, "text-category-shopping", "bg-category-shopping", "Shopping")
    case Health => CategoryConfig(Heart, "text-category-health", "bg-category-health", "Health & Wellness")
    case Other => CategoryConfig(ThreeDots, "text-category-other", "bg-category-other", "Other")
  }

  /** The category a key names, if any. */
  function CategoryOfKey(key: string): (r: Option<Category>)
    ensures r.Some? ==> r.value.Key() == key
    ensures r.None? ==> forall c: Category :: c.Key() != key
  {
    if key == "food" then Some(Food)
    else if key == "transport" then Some(Transport)
    else if key == "entertainment" then Some(Entertainment)
    else if key == "shopping" then Some(Shopping)
    else if key == "health" then Some(Health)
    else if key == "other" then Some(Other)
    else None
  }

  /** `getCategoryConfig`: a known key gives its own entry, anything else the
      "other" entry. */
  function GetCategoryConfig(key: string): (r: CategoryConfig)
    ensures forall c: Category :: c.Key() == key ==> r == ConfigOf(c)
    ensures (forall c: Category :: c.Key() != key) ==> r == ConfigOf(Other)
  {
    match CategoryOfKey(key)
    case Some(c) => KeyInjective(c, c); ConfigOf(c)
    case None => ConfigOf(Other)
  }

  /** No two categories share a display name, an icon or a class name. */
  lemma ConfigDistinct(a: Category, b: Category)
    ensures ConfigOf(a).name == ConfigOf(b).name <==> a == b
    ensures ConfigOf(a).icon == ConfigOf(b).icon <==> a == b
    ensures ConfigOf(a).color == ConfigOf(b).color <==> a == b
  {
    if ConfigOf(a).name == ConfigOf(b).name {
      assert ConfigOf(a).name[0] == ConfigOf(b).name[0];
    }
    if ConfigOf(a).color == ConfigOf(b).color {
      assert ConfigOf(a).color[14..] == a.Key();
      assert ConfigOf(b).color[14..] == b.Key();
      KeyInjective(a, b);
    }
  }
}
