/** The "Edit Product" dialog: a form seeded from the product, new files
    and their previews kept in step, and the update that appends new media
    to the stored media (src/components/artisans/EditProductDialog.js). */
module EditProductDialog {
  import opened Seqs
  import opened Catalog
  import opened MediaUpload

  const MissingFieldsError := "Please fill all required fields."
  const UpdateFailedError := "Failed to update product. Check the console for details."

  function DigitChar(d: int): char
    requires 0 <= d < 10
  {
    "0123456789"[d]
  }

  function DigitValue(c: char): int {
    c as int - '0' as int
  }

  /** The decimal digits of a natural number. */
  function Digits(n: nat): (r: string)
    ensures r != []
    ensures forall k :: 0 <= k < |r| ==> '0' <= r[k] <= '9'
  {
    if n < 10 then [DigitChar(n)] else Digits(n / 10) + [DigitChar(n % 10)]
  }

  /** `price.toString()` for a whole-number price. */
  function DecimalString(n: int): (r: string)
    ensures r != []
    ensures r[0] == '-' <==> n < 0
  {
    if n < 0 then "-" + Digits(-n) else Digits(n)
  }

  /** Reading a string of decimal digits. */
  function DigitsValue(s: string): int {
    if s == [] then 0 else 10 * DigitsValue(s[..|s| - 1]) + DigitValue(s[|s| - 1])
  }

  /** Reading an optionally signed decimal numeral. */
  function DecimalValue(s: string): int {
    if s != [] && s[0] == '-' then -DigitsValue(s[1..]) else DigitsValue(s)
  }

  lemma {:induction false} DigitsRoundTrip(n: nat)
    ensures DigitsValue(Digits(n)) == n
  {
    if n >= 10 {
      DigitsRoundTrip(n / 10);
      var s := Digits(n);
      assert s[..|s| - 1] == Digits(n / 10);
    }
  }

  /** The price text the form starts with reads back as the stored price. */
  lemma {:induction false} DecimalRoundTrip(n: int)
    ensures DecimalValue(DecimalString(n)) == n
  {
    if n < 0 {
      var d := Digits(-n);
      DigitsRoundTrip(-n);
      var s := "-" + d;
      assert s[1..] == d;
      assert DecimalString(n) == s;
      assert DecimalValue(s) == -DigitsValue(d);
    } else {
      var d := Digits(n);
      DigitsRoundTrip(n);
      assert '0' <= d[0] <= '9';
      assert DecimalString(n) == d;
      assert DecimalValue(d) == DigitsValue(d);
    }
  }

  /** `product.media || []`. */
  function MediaOr(media: Option<seq<Media>>): (r: seq<Media>)
    ensures media.Some? ==> r == media.value
    ensures media.None? ==> r == []
  {
    if media.Some? then media.value else []
  }

  /** The guard of `handleSubmit`: no new file is required. */
  predicate CanSubmit(name: string, priceText: string, description: string, category: string) {
    name != "" && priceText != "" && description != "" && category != ""
  }

  class EditForm {
    var productName: string
    var priceText: string
    var description: string
    var category: string
    var existingMedia: seq<Media>
    var newFiles: seq<SelectedFile>
    var newPreviews: seq<Preview>
    var loading: bool
    var error: string
    /** Whether the dialog asked its parent to close. */
    var closed: bool
    /** The product document being edited. */
    var stored: Product

    predicate Valid()
      reads this
    {
      InStep(newFiles, newPreviews)
    }

    /** The form opens on the product's own fields; a missing category is
        blank and missing media is an empty list. */
    constructor (product: Product)
      ensures Valid()
      ensures productName == product.name && priceText == DecimalString(product.price)
      ensures description == product.description
      ensures category == (if product.category.Some? then product.category.value else "")
      ensures existingMedia == MediaOr(product.media)
      ensures newFiles == [] && newPreviews == [] && !loading && error == "" && !closed
      ensures stored == product
    {
      productName := product.name;
      priceText := DecimalString(product.price);
      description := product.description;
      category := if product.category.Some? then product.category.value else "";
      existingMedia := MediaOr(product.media);
      newFiles, newPreviews := [], [];
      loading, error, closed := false, "", false;
      stored := product;
    }

    /** The input fields' `onChange`s. */
    method SetFields(name: string, price: string, desc: string, cat: string)
      modifies this`productName, this`priceText, this`description, this`category
      ensures productName == name && priceText == price && description == desc && category == cat
    {
      productName, priceText, description, category := name, price, desc, cat;
    }

    /** `handleFileChange` for the new files. */
    method FileChange(selected: Option<seq<SelectedFile>>)
      modifies this`newFiles, this`newPreviews
      requires Valid()
      ensures Valid()
      ensures selected.Some? ==> newFiles == selected.value && newPreviews == Previews(selected.value)
      ensures selected.None? ==> newFiles == old(newFiles) && newPreviews == old(newPreviews)
    {
      if selected.Some? {
        newFiles := selected.value;
        newPreviews := Previews(selected.value);
      }
    }

    /** `removeNewPreview(i)`: index `i` leaves both new-file lists, which
        stay in step. */
    method RemoveNewPreview(i: int)
      modifies this`newFiles, this`newPreviews
      requires Valid()
      ensures Valid()
      ensures newFiles == RemoveAt(old(newFiles), i) && newPreviews == RemoveAt(old(newPreviews), i)
    {
      RemoveKeepsStep(newFiles, newPreviews, i);
      newFiles := RemoveAt(newFiles, i);
      newPreviews := RemoveAt(newPreviews, i);
    }

    /** `removeExistingMedia(i)` only shows an alert: nothing changes. */
    method RemoveExistingMedia(i: int)
      ensures existingMedia == old(existingMedia)
    {
    }

    /** `handleSubmit`. With the guard failing only the error is set.
        Otherwise the new files are uploaded (`upload` answers each file's
        hosted url, or None on failure), the price text is read with
        `parsePrice`, and the update is written (`writeOk`): the fields
        replaced, new media appended to the stored media and new image
        urls to the stored ones, each only if not already present. */
    method Submit(upload: SelectedFile -> Option<string>, parsePrice: string -> int, writeOk: bool)
      returns (updated: bool)
      modifies this`stored, this`loading, this`error, this`closed
      requires Valid()
      ensures !CanSubmit(old(productName), old(priceText), old(description), old(category)) ==>
        !updated && error == MissingFieldsError && stored == old(stored) && loading == old(loading)
      ensures CanSubmit(old(productName), old(priceText), old(description), old(category)) ==> !loading
      ensures updated <==>
        (CanSubmit(productName, priceText, description, category) && UploadAll(newFiles, upload).Some? && writeOk)
      ensures updated ==>
        var added := UploadAll(newFiles, upload).value;
        && stored == old(stored).(name := productName, price := parsePrice(priceText),
             description := description, category := Some(category),
             media := Some(ArrayUnion(MediaOr(old(stored).media), added)),
             imageUrls := ArrayUnion(old(stored).imageUrls, ImageUrls(added)))
        && closed
      ensures updated ==> error == ""
      ensures !updated ==> stored == old(stored) && closed == old(closed)
      ensures !updated && CanSubmit(productName, priceText, description, category) ==> error == UpdateFailedError
    {
      error := "";
      if !CanSubmit(productName, priceText, description, category) {
        error := MissingFieldsError;
        return false;
      }
      loading := true;
      var added: Option<seq<Media>> := Some([]);
      if |newFiles| > 0 {
        added := UploadAll(newFiles, upload);
      }
      if added.None? || !writeOk {
        error := UpdateFailedError;
        updated := false;
      } else {
        stored := stored.(name := productName, price := parsePrice(priceText),
                          description := description, category := Some(category),
                          media := Some(ArrayUnion(MediaOr(stored.media), added.value)),
                          imageUrls := ArrayUnion(stored.imageUrls, ImageUrls(added.value)));
        closed := true;
        updated := true;
      }
      loading := false;
    }
  }

  /** Opening the dialog on a product and submitting it unedited, with the
      price text read back as a decimal numeral, leaves the stored price as
      it was, whether or not the update goes through. */
  method UneditedSubmitKeepsPrice(product: Product, upload: SelectedFile -> Option<string>, writeOk: bool)
    returns (updated: bool, price: int)
    ensures price == product.price
  {
    var form := new EditForm(product);
    DecimalRoundTrip(product.price);
    updated := form.Submit(upload, DecimalValue, writeOk);
    price := form.stored.price;
  }

  /** The update keeps every stored media entry and image url in place and
      adds only the new ones not already there; with no new files, neither
      list changes. */
  lemma UpdateKeepsMedia(media: seq<Media>, imageUrls: seq<string>, added: seq<Media>)
    ensures media <= ArrayUnion(media, added) && imageUrls <= ArrayUnion(imageUrls, ImageUrls(added))
    ensures forall m :: m in ArrayUnion(media, added) <==> m in media || m in added
    ensures forall u :: u in ArrayUnion(imageUrls, ImageUrls(added)) <==> u in imageUrls || Media(u, Image) in added
    ensures added == [] ==> ArrayUnion(media, added) == media && ArrayUnion(imageUrls, ImageUrls(added)) == imageUrls
  {
    ImageUrlsMembers(added);
  }
}
