/** The seller's product form: the customisation-option list edits, the
    submit handler that sends the form as a new or an edited product, and
    the loading of a product into the form. */
module ProductManagement {
  import opened Common
  import opened Types

  /** The form's fields; missing optional product fields are held as ''. */
  datatype FormData = FormData(
    name: string,
    categoryId: string,
    description: string,
    shortDescription: string,
    basePrice: int,
    sku: string,
    isCustomizable: bool,
    customizationOptions: seq<CustomizationOption>,
    tags: seq<string>,
    isFeatured: bool)

  /** The form's initial and reset state. */
  const EmptyForm: FormData := FormData("", "", "", "", 0, "", false, [], [], false)

  /** The option `addCustomizationOption` appends. */
  const NewOption: CustomizationOption := CustomizationOption(TextInput, "", false, None, None, None, None)

  /** `value || ''` for an optional string. */
  function OrEmpty(s: Option<string>): (r: string)
    ensures s.Some? ==> r == s.value
    ensures s.None? ==> r == ""
  {
    if s.Some? then s.value else ""
  }

  /** The form `handleEdit` loads for a product. */
  function FormOf(p: Product): FormData
  {
    FormData(p.name, p.categoryId, OrEmpty(p.description), OrEmpty(p.shortDescription), p.basePrice, OrEmpty(p.sku),
      p.isCustomizable, if p.customizationOptions.Some? then p.customizationOptions.value else [], p.tags, p.isFeatured)
  }

  /** A product with no optional text and no options loads as the empty form
      with its own name, category, price, flags and tags. */
  lemma FormOfBareProduct(p: Product)
    requires p.description.None? && p.shortDescription.None? && p.sku.None? && p.customizationOptions.None?
    ensures FormOf(p) == EmptyForm.(name := p.name, categoryId := p.categoryId, basePrice := p.basePrice,
      isCustomizable := p.isCustomizable, tags := p.tags, isFeatured := p.isFeatured)
  {
  }

  /** `options.filter((_, i) => i !== index)`: drops the option at `index`;
      an index outside the list drops nothing. */
  function RemoveAt(options: seq<CustomizationOption>, index: int): (r: seq<CustomizationOption>)
    ensures 0 <= index < |options| ==> |r| == |options| - 1
    ensures 0 <= index < |options| ==> forall j :: 0 <= j < |r| ==> r[j] == options[if j < index then j else j + 1]
    ensures !(0 <= index < |options|) ==> r == options
  {
    if 0 <= index < |options| then options[..index] + options[index + 1..] else options
  }

  /** Removing the option just added gives back the list. */
  lemma RemoveUndoesAdd(options: seq<CustomizationOption>)
    ensures RemoveAt(options + [NewOption], |options|) == options
  {
    assert (options + [NewOption])[..|options|] == options;
  }

  /** Writing an option at a position and then removing that position is
      removing it. */
  lemma RemoveAfterUpdate(options: seq<CustomizationOption>, index: nat, option: CustomizationOption)
    requires index < |options|
    ensures RemoveAt(options[index := option], index) == RemoveAt(options, index)
  {
    assert options[index := option][..index] == options[..index];
    assert options[index := option][index + 1..] == options[index + 1..];
  }

  /** What submitting sends. */
  datatype Submission = EditCall(productId: string, data: FormData) | AddCall(data: FormData)

  class ProductForm {
    var showAddForm: bool
    var editingProduct: Option<Product>
    var formData: FormData

    constructor()
      ensures !showAddForm && editingProduct.None? && formData == EmptyForm
    {
      showAddForm := false;
      editingProduct := None;
      formData := EmptyForm;
    }

    /** `addCustomizationOption`. */
    method AddCustomizationOption()
      modifies this
      ensures formData == old(formData).(customizationOptions := old(formData).customizationOptions + [NewOption])
      ensures showAddForm == old(showAddForm) && editingProduct == old(editingProduct)
    {
      formData := formData.(customizationOptions := formData.customizationOptions + [NewOption]);
    }

    /** `updateCustomizationOption`: copy the list, write one slot, store the
        copy. The form only offers positions of listed options. */
    method UpdateCustomizationOption(index: nat, option: CustomizationOption)
      requires index < |formData.customizationOptions|
      modifies this
      ensures |formData.customizationOptions| == |old(formData).customizationOptions|
      ensures formData == old(formData).(customizationOptions := old(formData).customizationOptions[index := option])
      ensures showAddForm == old(showAddForm) && editingProduct == old(editingProduct)
    {
      var options := formData.customizationOptions;
      var updated := new CustomizationOption[|options|](i requires 0 <= i < |options| => options[i]);
      updated[index] := option;
      assert updated[..] == options[index := option];
      formData := formData.(customizationOptions := updated[..]);
    }

    /** `removeCustomizationOption`. */
    method RemoveCustomizationOption(index: int)
      modifies this
      ensures formData == old(formData).(customizationOptions := RemoveAt(old(formData).customizationOptions, index))
      ensures showAddForm == old(showAddForm) && editingProduct == old(editingProduct)
    {
      formData := formData.(customizationOptions := RemoveAt(formData.customizationOptions, index));
    }

    /** `handleEdit`. */
    method HandleEdit(product: Product)
      modifies this
      ensures editingProduct == Some(product) && formData == FormOf(product) && showAddForm
    {
      editingProduct := Some(product);
      formData := FormOf(product);
      showAddForm := true;
    }

    /** The form's cancel and close buttons. */
    method Cancel()
      modifies this
      ensures !showAddForm && editingProduct.None? && formData == old(formData)
    {
      showAddForm := false;
      editingProduct := None;
    }

    /** `handleSubmit`: an edit when a product is being edited, an addition
        otherwise; then the form is reset and closed. */
    method HandleSubmit() returns (sent: Submission)
      modifies this
      ensures old(editingProduct).Some? ==> sent == EditCall(old(editingProduct).value.id, old(formData))
      ensures old(editingProduct).None? ==> sent == AddCall(old(formData))
      ensures formData == EmptyForm && !showAddForm && editingProduct.None?
    {
      if editingProduct.Some? {
        sent := EditCall(editingProduct.value.id, formData);
        editingProduct := None;
      } else {
        sent := AddCall(formData);
      }
      formData := EmptyForm;
      showAddForm := false;
    }
  }
}
