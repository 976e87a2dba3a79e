/** The add-product form: five text fields, an image list, and validation. */
module AddProductScreen {
  import opened Wrappers
  import opened Text

  const NameRequired := "Product name is required"
  const DescriptionRequired := "Description is required"
  const PriceRequired := "Price is required"
  const PriceNotNumber := "Price must be a number"
  const StockRequired := "Stock quantity is required"
  const StockNotNumber := "Stock must be a number"
  const CategoryRequired := "Category is required"
  const ImagesRequired := "At least one image is required"

  datatype ProductForm = ProductForm(name: string, description: string, price: string, stock: string, category: string)

  /** The error record; "" is a field without an error. */
  datatype ProductErrors = ProductErrors(
    name: string, description: string, price: string, stock: string,
    category: string, images: string, submit: string)

  const NoErrors := ProductErrors("", "", "", "", "", "", "")

  function RequiredError(value: string, message: string): string {
    if IsBlank(value) then message else ""
  }

  /** Blank first, then the numeric test: at most one message per field. */
  function NumberError(value: string, isNumber: string -> bool, required: string, notNumber: string): string {
    if IsBlank(value) then required else if !isNumber(value) then notNumber else ""
  }

  /**
   * The record `validateForm` writes. `isNumber` stands for `!isNaN(Number(s))`,
   * JavaScript's numeric conversion, which is not modelled.
   */
  function ErrorsOf(f: ProductForm, images: seq<string>, isNumber: string -> bool): ProductErrors
  {
    ProductErrors(
      RequiredError(f.name, NameRequired),
      RequiredError(f.description, DescriptionRequired),
      NumberError(f.price, isNumber, PriceRequired, PriceNotNumber),
      NumberError(f.stock, isNumber, StockRequired, StockNotNumber),
      RequiredError(f.category, CategoryRequired),
      if |images| == 0 then ImagesRequired else "",
      "")
  }

  /** Each error string names exactly the failure of its own field, and `submit` is reset. */
  lemma ErrorsOfSpec(f: ProductForm, images: seq<string>, isNumber: string -> bool)
    ensures ErrorsOf(f, images, isNumber).name == "" <==> !IsBlank(f.name)
    ensures ErrorsOf(f, images, isNumber).description == "" <==> !IsBlank(f.description)
    ensures ErrorsOf(f, images, isNumber).category == "" <==> !IsBlank(f.category)
    ensures ErrorsOf(f, images, isNumber).price == PriceRequired <==> IsBlank(f.price)
    ensures ErrorsOf(f, images, isNumber).price == PriceNotNumber <==> !IsBlank(f.price) && !isNumber(f.price)
    ensures ErrorsOf(f, images, isNumber).price == "" <==> !IsBlank(f.price) && isNumber(f.price)
    ensures ErrorsOf(f, images, isNumber).stock == StockRequired <==> IsBlank(f.stock)
    ensures ErrorsOf(f, images, isNumber).stock == StockNotNumber <==> !IsBlank(f.stock) && !isNumber(f.stock)
    ensures ErrorsOf(f, images, isNumber).stock == "" <==> !IsBlank(f.stock) && isNumber(f.stock)
    ensures ErrorsOf(f, images, isNumber).images == ImagesRequired <==> images == []
    ensures ErrorsOf(f, images, isNumber).images == "" <==> images != []
    ensures ErrorsOf(f, images, isNumber).submit == ""
  {
  }

  predicate ProductValid(f: ProductForm, images: seq<string>, isNumber: string -> bool) {
    !IsBlank(f.name) && !IsBlank(f.description) && !IsBlank(f.category)
    && !IsBlank(f.price) && isNumber(f.price)
    && !IsBlank(f.stock) && isNumber(f.stock)
    && images != []
  }

  /** The form is valid exactly when every error string is empty. */
  lemma ErrorsEmptyIffValid(f: ProductForm, images: seq<string>, isNumber: string -> bool)
    ensures ErrorsOf(f, images, isNumber) == NoErrors <==> ProductValid(f, images, isNumber)
  {
  }

  /** The elements of `s[from..]` whose position is not `index`, in order. */
  function KeepOthers(s: seq<string>, index: int, from: nat): seq<string>
    decreases |s| - from
  {
    if from >= |s| then [] else (if from != index then [s[from]] else []) + KeepOthers(s, index, from + 1)
  }

  /** `images.filter((_, i) => i !== index)`. */
  function RemoveImage(images: seq<string>, index: int): (r: seq<string>)
    ensures |r| == if 0 <= index < |images| then |images| - 1 else |images|
    ensures forall x :: x in r ==> x in images
  {
    KeepOthersSpec(images, index, 0);
    KeepOthers(images, index, 0)
  }

  lemma {:induction false} KeepOthersSpec(s: seq<string>, index: int, from: nat)
    requires from <= |s|
    ensures KeepOthers(s, index, from) == if from <= index < |s| then s[from..index] + s[index + 1..] else s[from..]
    decreases |s| - from
  {
    if from < |s| {
      KeepOthersSpec(s, index, from + 1);
      if from == index {
        assert s[from..index] == [];
      } else if from < index < |s| {
        assert s[from..index] == [s[from]] + s[from + 1..index];
      } else {
        assert s[from..] == [s[from]] + s[from + 1..];
      }
    }
  }

  /** `removeImage(i)` deletes exactly position i, keeping the rest in order; an index out of range changes nothing. */
  lemma RemoveImageSpec(images: seq<string>, index: int)
    ensures 0 <= index < |images| ==> RemoveImage(images, index) == images[..index] + images[index + 1..]
    ensures !(0 <= index < |images|) ==> RemoveImage(images, index) == images
  {
    KeepOthersSpec(images, index, 0);
    assert images[0..] == images;
  }

  /** The body of `validateForm`: fills a fresh record field by field and clears a flag on each failure. */
  method CollectErrors(f: ProductForm, imgs: seq<string>, isNumber: string -> bool) returns (newErrors: ProductErrors, isValid: bool)
    ensures isValid <==> ProductValid(f, imgs, isNumber)
    ensures newErrors == ErrorsOf(f, imgs, isNumber)
  {
    newErrors := NoErrors;
    isValid := true;
    TrimEmptyIffBlank(f.name);
    TrimEmptyIffBlank(f.description);
    TrimEmptyIffBlank(f.price);
    TrimEmptyIffBlank(f.stock);
    TrimEmptyIffBlank(f.category);
    if Trim(f.name) == [] {
      newErrors := newErrors.(name := NameRequired);
      isValid := false;
    }
    if Trim(f.description) == [] {
      newErrors := newErrors.(description := DescriptionRequired);
      isValid := false;
    }
    if Trim(f.price) == [] {
      newErrors := newErrors.(price := PriceRequired);
      isValid := false;
    } else if !isNumber(f.price) {
      newErrors := newErrors.(price := PriceNotNumber);
      isValid := false;
    }
    if Trim(f.stock) == [] {
      newErrors := newErrors.(stock := StockRequired);
      isValid := false;
    } else if !isNumber(f.stock) {
      newErrors := newErrors.(stock := StockNotNumber);
      isValid := false;
    }
    if Trim(f.category) == [] {
      newErrors := newErrors.(category := CategoryRequired);
      isValid := false;
    }
    if |imgs| == 0 {
      newErrors := newErrors.(images := ImagesRequired);
      isValid := false;
    }
  }

  datatype Field = Name | Description | Price | Stock | Category

  class AddProductForm {
    var form: ProductForm
    var images: seq<string>
    var errors: ProductErrors
    var loading: bool

    constructor ()
      ensures form == ProductForm("", "", "", "", "") && images == [] && errors == NoErrors && !loading
    {
      form := ProductForm("", "", "", "", "");
      images := [];
      errors := NoErrors;
      loading := false;
    }

    /** Editing a field stores the text and clears only that field's error. */
    method Edit(field: Field, text: string)
      modifies this
      ensures form == match field
        case Name => old(form).(name := text)
        case Description => old(form).(description := text)
        case Price => old(form).(price := text)
        case Stock => old(form).(stock := text)
        case Category => old(form).(category := text)
      ensures errors == match field
        case Name => old(errors).(name := "")
        case Description => old(errors).(description := "")
        case Price => old(errors).(price := "")
        case Stock => old(errors).(stock := "")
        case Category => old(errors).(category := "")
      ensures images == old(images) && loading == old(loading)
    {
      match field {
        case Name =>
          form := form.(name := text);
          errors := errors.(name := "");
        case Description =>
          form := form.(description := text);
          errors := errors.(description := "");
        case Price =>
          form := form.(price := text);
          errors := errors.(price := "");
        case Stock =>
          form := form.(stock := text);
          errors := errors.(stock := "");
        case Category =>
          form := form.(category := text);
          errors := errors.(category := "");
      }
    }

    /**
     * `pickImage` once the picker returns: `None` is a cancelled pick. A pick
     * with a non-empty URI is appended at the end and clears the image error;
     * anything else changes nothing.
     */
    method PickImage(picked: Option<string>)
      modifies this
      ensures picked.Some? && picked.value != "" ==>
        images == old(images) + [picked.value] && errors == old(errors).(images := "")
      ensures !(picked.Some? && picked.value != "") ==> images == old(images) && errors == old(errors)
      ensures form == old(form) && loading == old(loading)
    {
      if picked.Some? && picked.value != "" {
        images := images + [picked.value];
        errors := errors.(images := "");
      }
    }

    method RemoveImageAt(index: int)
      modifies this
      ensures images == RemoveImage(old(images), index)
      ensures form == old(form) && errors == old(errors) && loading == old(loading)
    {
      images := RemoveImage(images, index);
    }

    /** `validateForm`: collects every error and writes the record. */
    method ValidateForm(isNumber: string -> bool) returns (isValid: bool)
      modifies this
      ensures isValid <==> ProductValid(form, images, isNumber)
      ensures errors == ErrorsOf(form, images, isNumber)
      ensures form == old(form) && images == old(images) && loading == old(loading)
    {
      var newErrors;
      newErrors, isValid := CollectErrors(form, images, isNumber);
      errors := newErrors;
    }

    /** `handleSubmit`: an invalid form only shows its errors; a valid one is accepted and loading ends false. */
    method HandleSubmit(isNumber: string -> bool) returns (accepted: bool)
      modifies this
      ensures accepted <==> ProductValid(form, images, isNumber)
      ensures errors == ErrorsOf(form, images, isNumber)
      ensures !accepted ==> loading == old(loading)
      ensures accepted ==> !loading
      ensures form == old(form) && images == old(images)
    {
      accepted := ValidateForm(isNumber);
      if !accepted {
        return;
      }
      loading := true;
      loading := false;
    }
  }
}
