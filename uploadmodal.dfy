/**
 * The admin's add-product dialog (components/UploadModal.tsx): the submit guard, the product
 * built from the form with its defaults, and the form reset.
 */
module UploadModal {
  import opened Types
  import ProductDetails

  /** The dialog's five text fields. */
  datatype ProductForm = ProductForm(name: string, price: string, category: string, image: string, description: string)

  datatype FormField = Name | Price | Category | Image | Description

  const EmptyForm := ProductForm("", "", "", "", "")

  const DefaultCategory: string := "Uncategorized"

  /** The innerwear placeholder picture used when no image URL is given. */
  const PlaceholderImage: string :=
    "https://images.unsplash.com/photo-1596482618218-1c42289c8038?auto=format&fit=crop&q=80&w=1000"

  /** `text || fallback` for a string. */
  function OrDefault(text: string, fallback: string): (r: string)
    ensures r == text || r == fallback
    ensures text != "" ==> r == text
    ensures fallback != "" ==> r != ""
  {
    if text != "" then text else fallback
  }

  /** The guard at the top of `handleSubmit`: a name and a price must both be typed. */
  predicate CanSubmit(form: ProductForm) {
    form.name != "" && form.price != ""
  }

  /** The product handed to `onAddProduct`, given the clock's id and the parsed price. */
  function NewProduct(form: ProductForm, id: string, price: real): (p: Product)
    ensures p.id == id && p.name == form.name && p.price == price
    ensures p.description == form.description
    ensures p.category == OrDefault(form.category, DefaultCategory)
    ensures p.image == OrDefault(form.image, PlaceholderImage)
    ensures p.reviews == Some([])
  {
    Product(id, form.name, price, OrDefault(form.category, DefaultCategory),
            OrDefault(form.image, PlaceholderImage), form.description, Some([]))
  }

  /** An uploaded product always has a category and a picture, and starts unrated with no badge. */
  lemma NewProductDefaults(form: ProductForm, id: string, price: real)
    ensures NewProduct(form, id, price).category != ""
    ensures NewProduct(form, id, price).image != ""
    ensures ProductDetails.AverageRating(NewProduct(form, id, price).reviews) == 0.0
    ensures !ProductDetails.ShowsRatingBadge(NewProduct(form, id, price))
  {
  }

  /** One input's change handler: `{...formData, field: value}`. */
  function WithField(form: ProductForm, field: FormField, value: string): (r: ProductForm)
    ensures r.name == (if field == Name then value else form.name)
    ensures r.price == (if field == Price then value else form.price)
    ensures r.category == (if field == Category then value else form.category)
    ensures r.image == (if field == Image then value else form.image)
    ensures r.description == (if field == Description then value else form.description)
  {
    match field
    case Name => form.(name := value)
    case Price => form.(price := value)
    case Category => form.(category := value)
    case Image => form.(image := value)
    case Description => form.(description := value)
  }

  /**
   * Typing the five fields into the empty dialog allows the submit exactly when a name and a
   * price were typed, and the product then carries what was typed, with the defaults filled in.
   */
  lemma FillingTheFormGivesTheProduct(name: string, price: string, category: string, image: string,
                                      description: string, id: string, value: real)
    ensures var form := WithField(WithField(WithField(WithField(WithField(EmptyForm,
                          Name, name), Price, price), Category, category), Image, image), Description, description);
            (CanSubmit(form) <==> name != "" && price != "")
            && NewProduct(form, id, value)
               == Product(id, name, value, OrDefault(category, DefaultCategory), OrDefault(image, PlaceholderImage),
                          description, Some([]))
  {
  }

  class UploadForm {
    var formData: ProductForm

    constructor ()
      ensures formData == EmptyForm
    {
      formData := EmptyForm;
    }

    method Edit(field: FormField, value: string)
      modifies this`formData
      ensures formData == WithField(old(formData), field, value)
    {
      formData := WithField(formData, field, value);
    }

    /**
     * `handleSubmit`: with a name and a price the product is emitted and the form empties;
     * otherwise nothing happens. `price` is the value `parseFloat` gives for the price field.
     */
    method Submit(id: string, price: real) returns (added: Option<Product>)
      modifies this`formData
      ensures CanSubmit(old(formData)) ==> added == Some(NewProduct(old(formData), id, price)) && formData == EmptyForm
      ensures !CanSubmit(old(formData)) ==> added == None && formData == old(formData)
    {
      if formData.name == "" || formData.price == "" {
        return None;
      }
      added := Some(Product(id, formData.name, price, OrDefault(formData.category, DefaultCategory),
                            OrDefault(formData.image, PlaceholderImage), formData.description, Some([])));
      formData := EmptyForm;
    }
  }
}
