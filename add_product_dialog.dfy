/** The "Add New Product" dialog: its form fields, the chosen files and
    their previews kept in step, and the product document it writes
    (src/components/artisans/AddProductDialog.js). */
module AddProductDialog {
  import opened Seqs
  import opened Js
  import opened Catalog
  import opened Auth
  import opened MediaUpload

  const MissingFieldsError := "Please fill all fields, select a category, and upload at least one file."
  const AddFailedError := "Failed to add product. Check the console for details."

  /** The document written to the products collection (the server
      timestamp aside). The price is the text as entered. */
  datatype NewProduct = NewProduct(
    artisanId: string,
    artisanName: JsValue,
    name: string,
    priceText: string,
    description: string,
    category: string,
    media: seq<Media>,
    imageUrls: seq<string>,
    isVerified: bool)

  /** `handleSubmit`'s guard: each field non-empty, a file chosen and a
      session present. */
  predicate CanSubmit(name: string, priceText: string, description: string, category: string,
                      files: seq<SelectedFile>, user: Option<AppUser>) {
    name != "" && priceText != "" && description != "" && category != "" && files != [] && user.Some?
  }

  class AddForm {
    var productName: string
    var priceText: string
    var description: string
    var category: string
    var files: seq<SelectedFile>
    var previews: seq<Preview>
    var loading: bool
    var error: string
    var isOpen: bool
    /** The products collection's documents written by this dialog. */
    var written: seq<NewProduct>

    predicate Valid()
      reads this
    {
      InStep(files, previews)
    }

    constructor ()
      ensures Valid()
      ensures productName == "" && priceText == "" && description == "" && category == ""
      ensures files == [] && previews == [] && !loading && error == "" && !isOpen && written == []
    {
      productName, priceText, description, category := "", "", "", "";
      files, previews := [], [];
      loading, error, isOpen := false, "", false;
      written := [];
    }

    /** The input fields' `onChange`s. */
    method SetFields(name: string, price: string, desc: string, cat: string)
      modifies this`productName, this`priceText, this`description, this`category
      ensures productName == name && priceText == price && description == desc && category == cat
    {
      productName, priceText, description, category := name, price, desc, cat;
    }

    /** `handleFileChange`: a new selection replaces both lists; no
        selection leaves them. */
    method FileChange(selected: Option<seq<SelectedFile>>)
      modifies this`files, this`previews
      requires Valid()
      ensures Valid()
      ensures selected.Some? ==> files == selected.value && previews == Previews(selected.value)
      ensures selected.None? ==> files == old(files) && previews == old(previews)
    {
      if selected.Some? {
        files := selected.value;
        previews := Previews(selected.value);
      }
    }

    /** `removeFile(i)`: index `i` leaves both lists, the rest keep their
        order, and the lists stay in step. */
    method RemoveFile(i: int)
      modifies this`files, this`previews
      requires Valid()
      ensures Valid()
      ensures files == RemoveAt(old(files), i) && previews == RemoveAt(old(previews), i)
      ensures 0 <= i < |old(files)| ==> |files| == |old(files)| - 1
    {
      RemoveKeepsStep(files, previews, i);
      files := RemoveAt(files, i);
      previews := RemoveAt(previews, i);
    }

    /** `resetForm`. */
    method Reset()
      modifies this`productName, this`priceText, this`description, this`category,
               this`files, this`previews, this`error, this`loading
      ensures Valid()
      ensures productName == "" && priceText == "" && description == "" && category == ""
      ensures files == [] && previews == [] && error == "" && !loading
    {
      productName, priceText, description, category := "", "", "", "";
      files, previews := [], [];
      error := "";
      loading := false;
    }

    /** The dialog's `onOpenChange`: closing resets the form. */
    method OpenChange(open: bool)
      modifies this
      requires Valid()
      ensures Valid()
      ensures isOpen == open && written == old(written)
      ensures !open ==>
        && productName == "" && priceText == "" && description == "" && category == ""
        && files == [] && previews == [] && error == "" && !loading
      ensures open ==>
        && productName == old(productName) && priceText == old(priceText)
        && description == old(description) && category == old(category)
        && files == old(files) && previews == old(previews) && error == old(error) && loading == old(loading)
    {
      if !open {
        Reset();
      }
      isOpen := open;
    }

    /** `handleSubmit`. With the guard failing, only the error is set and
        nothing is written. Otherwise every file is uploaded (`upload`
        answers each file's hosted url, or None on failure) and the document
        is written (`writeOk`); on success the dialog closes and the form is
        reset, on failure the form stays with an error. */
    method Submit(user: Option<AppUser>, upload: SelectedFile -> Option<string>, writeOk: bool)
      returns (added: Option<NewProduct>)
      modifies this
      requires Valid()
      ensures Valid()
      ensures !CanSubmit(old(productName), old(priceText), old(description), old(category), old(files), user) ==>
        added.None? && error == MissingFieldsError && written == old(written) && loading == old(loading)
        && productName == old(productName) && priceText == old(priceText)
        && description == old(description) && category == old(category)
        && files == old(files) && previews == old(previews) && isOpen == old(isOpen)
      ensures added.Some? <==>
        (CanSubmit(old(productName), old(priceText), old(description), old(category), old(files), user)
         && UploadAll(old(files), upload).Some? && writeOk)
      ensures added.Some? ==>
        && added.value.artisanId == user.value.uid && added.value.artisanName == user.value.displayName
        && added.value.name == old(productName) && added.value.priceText == old(priceText)
        && added.value.description == old(description) && added.value.category == old(category)
        && added.value.media == UploadAll(old(files), upload).value
        && added.value.imageUrls == ImageUrls(added.value.media)
        && !added.value.isVerified
        && written == old(written) + [added.value]
        && !isOpen && files == [] && previews == [] && error == ""
        && productName == "" && priceText == "" && description == "" && category == ""
      ensures CanSubmit(old(productName), old(priceText), old(description), old(category), old(files), user) ==> !loading
      ensures added.None? && CanSubmit(old(productName), old(priceText), old(description), old(category), old(files), user) ==>
        error == AddFailedError && written == old(written) && isOpen == old(isOpen)
        && productName == old(productName) && priceText == old(priceText)
        && description == old(description) && category == old(category)
        && files == old(files) && previews == old(previews)
    {
      added := None;
      error := "";
      if !CanSubmit(productName, priceText, description, category, files, user) {
        error := MissingFieldsError;
        return;
      }
      loading := true;
      var media := UploadAll(files, upload);
      if media.None? || !writeOk {
        error := AddFailedError;
      } else {
        var doc := NewProduct(user.value.uid, user.value.displayName, productName, priceText,
                              description, category, media.value, ImageUrls(media.value), false);
        written := written + [doc];
        added := Some(doc);
        isOpen := false;
        Reset();
      }
      loading := false;
    }
  }
}
