/** The field rules the public category cards share (the explore grid and the
    home page's hero): the card's id, icon and gradient with their fallbacks. */
module Cards {
  import opened Catalog
  import opened Gateway

  /** The icon id a card falls back to. */
  const DefaultCardIcon: string := "folder"

  /** The gradient a card falls back to. */
  const DefaultCardGradient: string := "from-blue-500 to-purple-600"

  /** `cat.slug || cat._id`. */
  function CardId(c: Category): (id: string)
    ensures c.slug != "" ==> id == c.slug
    ensures c.slug == "" ==> id == c.id
  {
    Or(c.slug, c.id)
  }

  /** `cat.icon || "folder"`. */
  function CardIcon(c: Category): (icon: string)
    ensures icon != ""
    ensures c.icon != "" ==> icon == c.icon
    ensures c.icon == "" ==> icon == DefaultCardIcon
  {
    Or(c.icon, DefaultCardIcon)
  }

  /** `cat.gradient || "from-blue-500 to-purple-600"`. */
  function CardGradient(c: Category): (gradient: string)
    ensures gradient != ""
    ensures c.gradient != "" ==> gradient == c.gradient
    ensures c.gradient == "" ==> gradient == DefaultCardGradient
  {
    Or(c.gradient, DefaultCardGradient)
  }
}
