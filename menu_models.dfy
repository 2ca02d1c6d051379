/** The menu service's records: items and categories. */
module MenuModels {
  import opened Wrappers
  import opened Decimals

  datatype MenuItem = MenuItem(
    id: string,
    restaurantId: string,
    name: string,
    description: Option<string>,
    price: Decimal,
    categoryId: string,
    available: bool,
    imageUrl: Option<string>)

  datatype Category = Category(
    id: string,
    restaurantId: string,
    name: string,
    description: Option<string>,
    sortOrder: int)

  /** A field that failed validation. */
  datatype ValidationError = ValidationError(field: string)

  /** The field constraint on `MenuItem.price`: `ge=0`. */
  predicate ValidItem(item: MenuItem) {
    Value(item.price) >= 0.0
  }

  /**
    `MenuItem(...)`: `description` and `image_url` default to None and `available` to true;
    a negative price is rejected.
   */
  function NewMenuItem(
    id: string, restaurantId: string, name: string, price: Decimal, categoryId: string,
    description: Option<string> := None, available: bool := true, imageUrl: Option<string> := None
  ): (r: Result<MenuItem, ValidationError>)
    ensures r.Success? <==> (!price.negative || price.units == 0)
    ensures r.Success? ==> ValidItem(r.value)
    ensures r.Success? ==> r.value == MenuItem(id, restaurantId, name, description, price, categoryId, available, imageUrl)
    ensures r.Failure? ==> r.error == ValidationError("price")
  {
    NonNegativeValue(price);
    if Value(price) >= 0.0
    then Success(MenuItem(id, restaurantId, name, description, price, categoryId, available, imageUrl))
    else Failure(ValidationError("price"))
  }

  /** With only the required fields given, an item is available and has no description or image. */
  lemma NewMenuItemDefaults(id: string, restaurantId: string, name: string, price: Decimal, categoryId: string)
    requires !price.negative
    ensures var r := NewMenuItem(id, restaurantId, name, price, categoryId);
      r.Success? && r.value.available && r.value.description.None? && r.value.imageUrl.None?
  {
  }

  /** `Category(...)`: `description` defaults to None and `sort_order` to 0. */
  function NewCategory(
    id: string, restaurantId: string, name: string,
    description: Option<string> := None, sortOrder: int := 0
  ): (c: Category)
  {
    Category(id, restaurantId, name, description, sortOrder)
  }

  lemma NewCategoryDefaults(id: string, restaurantId: string, name: string)
    ensures NewCategory(id, restaurantId, name).sortOrder == 0
    ensures NewCategory(id, restaurantId, name).description.None?
  {
  }
}
