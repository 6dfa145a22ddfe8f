/** The add-product screen: an image file checked when chosen, a
    required-field check before the upload, and the message the upload
    leaves. */
module AddProduct {
  import opened Js
  import opened Text

  const NotAnImageMessage := "Please select an image file"
  const TooLargeMessage := "Image must be less than 2MB"
  const RequiredMessage := "Please fill all required fields"
  const AddedMessage := "Product added successfully!"
  const AddFailedDefault := "Error adding product"

  /** 2 MiB, the largest image accepted. */
  const MaxImageBytes := 2 * 1024 * 1024

  /** The picked file: its MIME type and its size in bytes. */
  datatype ImageFile = ImageFile(mime: string, size: nat)

  /** The alert above the form; an empty text shows nothing. */
  datatype MessageKind = NoKind | Danger | Success

  datatype Message = Message(text: string, kind: MessageKind)

  const NoMessage := Message("", NoKind)

  /** The `product` object: the typed fields and the chosen image. */
  datatype ProductForm = ProductForm(
    name: string,
    price: string,
    description: string,
    stock: string,
    category: string,
    image: Option<ImageFile>)

  const EmptyForm := ProductForm("", "", "", "", "", None)

  datatype TextField = NameField | PriceField | DescriptionField | StockField | CategoryField

  /** The multipart upload with its authorization header. */
  datatype ProductUpload = ProductUpload(
    name: string,
    price: string,
    description: string,
    stock: string,
    category: string,
    image: ImageFile,
    authorization: string)

  /** How the upload ended: it was accepted, or it failed with the body's
      `error` when the server answered and axios's own `message`. */
  datatype UploadOutcome = Added | AddFailed(responseError: Option<string>, errorMessage: Option<string>)

  datatype Navigation = NavigateTo(path: string) | NavigateBack

  /** The screen's state. `preview` stands for the object URL of the
      previewed file; `pendingResets` counts the reset timers scheduled by
      successful uploads that have not fired yet. */
  datatype AddProductState = AddProductState(
    product: ProductForm,
    preview: Option<ImageFile>,
    message: Message,
    isSubmitting: bool,
    sent: seq<ProductUpload>,
    pendingResets: nat,
    navigation: Option<Navigation>)

  const Initial := AddProductState(EmptyForm, None, NoMessage, false, [], 0, None)

  // ---------------------------------------------------------------------
  // Choosing a file

  /** `file.type.match('image.*')`: the pattern is not anchored, so any type
      with "image" somewhere in it passes. */
  predicate IsImageType(mime: string)
  {
    Contains(mime, "image")
  }

  /** `handleFileChange`: no file changes nothing; a file that is not an
      image or is over 2 MiB only sets the matching message; any other file
      becomes the product's image and its preview, and the message clears. */
  function ChooseFile(s: AddProductState, file: Option<ImageFile>): (t: AddProductState)
    ensures file.None? ==> t == s
    ensures file.Some? && !IsImageType(file.value.mime) ==> t == s.(message := Message(NotAnImageMessage, Danger))
    ensures file.Some? && IsImageType(file.value.mime) && file.value.size > MaxImageBytes ==>
              t == s.(message := Message(TooLargeMessage, Danger))
    ensures t.product.image != s.product.image ==>
              && file.Some? && IsImageType(file.value.mime) && file.value.size <= MaxImageBytes
              && t.product.image == Some(file.value)
    ensures file.Some? && IsImageType(file.value.mime) && file.value.size <= MaxImageBytes ==>
              && t.product == s.product.(image := file)
              && t.preview == file && t.message == NoMessage
    ensures t.isSubmitting == s.isSubmitting && t.sent == s.sent && t.navigation == s.navigation
  {
    match file
    case None => s
    case Some(f) =>
      if !IsImageType(f.mime) then s.(message := Message(NotAnImageMessage, Danger))
      else if f.size > MaxImageBytes then s.(message := Message(TooLargeMessage, Danger))
      else s.(product := s.product.(image := Some(f)), preview := Some(f), message := NoMessage)
  }

  /** The size bound is inclusive: an image of exactly 2 MiB is taken and
      one byte more is refused. */
  lemma SizeLimitIsInclusive(s: AddProductState, mime: string)
    requires IsImageType(mime)
    ensures ChooseFile(s, Some(ImageFile(mime, MaxImageBytes))).product.image == Some(ImageFile(mime, MaxImageBytes))
    ensures ChooseFile(s, Some(ImageFile(mime, MaxImageBytes + 1))).product == s.product
    ensures ChooseFile(s, Some(ImageFile(mime, MaxImageBytes + 1))).message.text == TooLargeMessage
  {
  }

  /** The check is a substring test: an image type passes wherever
      "image" stands in it. */
  lemma ImageAnywhereInTypePasses(prefix: string, suffix: string)
    ensures IsImageType(prefix + "image" + suffix)
  {
    var m := prefix + "image" + suffix;
    assert m[|prefix|..|prefix| + 5] == "image";
    assert OccursAt(m, "image", |prefix|);
    ContainsIff(m, "image");
  }

  /** A type without the letter 'g' (a PDF, say) is refused. */
  lemma TypeWithoutImageFails(mime: string)
    requires forall i :: 0 <= i < |mime| ==> mime[i] != 'g'
    ensures !IsImageType(mime)
  {
    ContainsNeedsChar(mime, "image", 3);
  }

  /** "Remove Image": the image and its preview go; the rest stays. */
  function RemoveImage(s: AddProductState): (t: AddProductState)
    ensures t.product == s.product.(image := None) && t.preview.None?
    ensures t == s.(product := t.product, preview := None)
  {
    s.(product := s.product.(image := None), preview := None)
  }

  function SetField(p: ProductForm, field: TextField, value: string): ProductForm
  {
    match field
    case NameField => p.(name := value)
    case PriceField => p.(price := value)
    case DescriptionField => p.(description := value)
    case StockField => p.(stock := value)
    case CategoryField => p.(category := value)
  }

  // ---------------------------------------------------------------------
  // Submitting

  /** The required-field check: a name that is not blank and a price,
      stock, category and image; the description may be left empty. */
  predicate RequiredFilled(p: ProductForm)
  {
    Trim(p.name) != "" && p.price != "" && p.stock != "" && p.category != "" && p.image.Some?
  }

  /** The header value: the stored token after "Bearer ", which reads
      "Bearer null" when no token is stored. */
  function Authorization(token: Option<string>): string
  {
    "Bearer " + token.GetOr("null")
  }

  /** The header is the scheme, then the stored token or the text `null`. */
  lemma AuthorizationHeader(token: Option<string>)
    ensures |Authorization(token)| >= 7 && Authorization(token)[..7] == "Bearer "
    ensures token.Some? ==> Authorization(token)[7..] == token.value
    ensures token.None? ==> Authorization(token)[7..] == "null"
  {
  }

  /** The catch block: the server's `error`, else axios's message, else the
      default. */
  function FailureMessage(responseError: Option<string>, errorMessage: Option<string>): (r: string)
    ensures r != ""
    ensures responseError.Some? && responseError.value != "" ==> r == responseError.value
    ensures (responseError.None? || responseError.value == "") && errorMessage.Some? && errorMessage.value != "" ==>
              r == errorMessage.value
    ensures (responseError.None? || responseError.value == "") && (errorMessage.None? || errorMessage.value == "") ==>
              r == AddFailedDefault
  {
    Or2(responseError, errorMessage, AddFailedDefault)
  }

  function UploadOf(p: ProductForm, token: Option<string>): ProductUpload
    requires p.image.Some?
  {
    ProductUpload(p.name, p.price, p.description, p.stock, p.category, p.image.value, Authorization(token))
  }

  /** `handleSubmit`, with the stored token and the upload's outcome as
      inputs: a form missing a required field only shows the required
      message; a complete one is uploaded and ends in the success message
      with a reset scheduled, or in the failure message. The button is
      enabled again either way. */
  function Submit(s: AddProductState, token: Option<string>, outcome: UploadOutcome): (t: AddProductState)
    ensures !t.isSubmitting
    ensures t.product == s.product && t.preview == s.preview && t.navigation == s.navigation
    ensures !RequiredFilled(s.product) ==>
              && t.message == Message(RequiredMessage, Danger)
              && t.sent == s.sent && t.pendingResets == s.pendingResets
    ensures RequiredFilled(s.product) ==> t.sent == s.sent + [UploadOf(s.product, token)]
    ensures RequiredFilled(s.product) && outcome.Added? ==>
              t.message == Message(AddedMessage, Success) && t.pendingResets == s.pendingResets + 1
    ensures RequiredFilled(s.product) && outcome.AddFailed? ==>
              && t.message == Message(FailureMessage(outcome.responseError, outcome.errorMessage), Danger)
              && t.pendingResets == s.pendingResets
  {
    var started := s.(isSubmitting := true, message := NoMessage);
    if !RequiredFilled(s.product) then
      started.(message := Message(RequiredMessage, Danger), isSubmitting := false)
    else Upload(started, token, outcome)
  }

  /** The `try`/`catch`/`finally` of a complete form: the upload is sent,
      its outcome sets the message, and the button is enabled again. */
  function Upload(s: AddProductState, token: Option<string>, outcome: UploadOutcome): (t: AddProductState)
    requires s.product.image.Some?
    ensures !t.isSubmitting && t.sent == s.sent + [UploadOf(s.product, token)]
    ensures t.product == s.product && t.preview == s.preview && t.navigation == s.navigation
    ensures outcome.Added? ==> t.message.kind == Success && t.pendingResets == s.pendingResets + 1
    ensures outcome.AddFailed? ==> t.message.kind == Danger && t.pendingResets == s.pendingResets
  {
    var sending := s.(sent := s.sent + [UploadOf(s.product, token)]);
    match outcome
    case Added => sending.(message := Message(AddedMessage, Success), pendingResets := s.pendingResets + 1, isSubmitting := false)
    case AddFailed(re, em) => sending.(message := Message(FailureMessage(re, em), Danger), isSubmitting := false)
  }

  /** A blank name is refused even with everything else filled in. */
  lemma BlankNameRefused(s: AddProductState, token: Option<string>, outcome: UploadOutcome)
    requires IsBlank(s.product.name)
    ensures Submit(s, token, outcome).sent == s.sent
    ensures Submit(s, token, outcome).message.text == RequiredMessage
  {
    TrimEmptyIffBlank(s.product.name);
  }

  /** The description is optional: a form is complete whatever it says. */
  lemma DescriptionOptional(p: ProductForm, description: string)
    ensures RequiredFilled(p) <==> RequiredFilled(p.(description := description))
  {
  }

  /** The timer a successful upload scheduled: the form and its preview
      are emptied and the home page opens. */
  function ResetFires(s: AddProductState): (t: AddProductState)
    requires s.pendingResets > 0
    ensures t.product == EmptyForm && t.preview.None? && t.navigation == Some(NavigateTo("/"))
    ensures t.pendingResets == s.pendingResets - 1
    ensures t.message == s.message && t.sent == s.sent && t.isSubmitting == s.isSubmitting
  {
    s.(product := EmptyForm, preview := None, pendingResets := s.pendingResets - 1, navigation := Some(NavigateTo("/")))
  }

  /** After a successful upload and its timer the form is empty again, so
      submitting it at once sends nothing. */
  lemma ResetFormIsRefused(s: AddProductState, token: Option<string>, outcome: UploadOutcome, next: UploadOutcome)
    requires RequiredFilled(s.product) && outcome.Added?
    ensures var t := ResetFires(Submit(s, token, outcome));
            Submit(t, token, next).sent == s.sent + [UploadOf(s.product, token)]
  {
    var t := ResetFires(Submit(s, token, outcome));
    assert !RequiredFilled(t.product);
  }

  class AddProductScreen {
    var product: ProductForm
    var preview: Option<ImageFile>
    var message: Message
    var isSubmitting: bool
    var sent: seq<ProductUpload>
    var pendingResets: nat
    var navigation: Option<Navigation>

    function State(): AddProductState
      reads this
    {
      AddProductState(product, preview, message, isSubmitting, sent, pendingResets, navigation)
    }

    constructor ()
      ensures State() == Initial
    {
      product, preview, message, isSubmitting := EmptyForm, None, NoMessage, false;
      sent, pendingResets, navigation := [], 0, None;
    }

    /** `handleChange`: one text field takes the value. */
    method Change(field: TextField, value: string)
      modifies this
      ensures State() == old(State()).(product := SetField(old(product), field, value))
    {
      product := SetField(product, field, value);
    }

    method HandleFileChange(file: Option<ImageFile>)
      modifies this
      ensures State() == ChooseFile(old(State()), file)
    {
      if file.Some? {
        var f := file.value;
        if !Contains(f.mime, "image") {
          message := Message(NotAnImageMessage, Danger);
          return;
        }
        if f.size > MaxImageBytes {
          message := Message(TooLargeMessage, Danger);
          return;
        }
        product := product.(image := Some(f));
        preview := Some(f);
        message := NoMessage;
      }
    }

    method HandleRemoveImage()
      modifies this
      ensures State() == RemoveImage(old(State()))
    {
      product := product.(image := None);
      preview := None;
    }

    method HandleSubmit(token: Option<string>, outcome: UploadOutcome)
      modifies this
      ensures State() == Submit(old(State()), token, outcome)
    {
      ghost var s := State();
      isSubmitting := true;
      message := NoMessage;
      ghost var started := State();
      assert started == s.(isSubmitting := true, message := NoMessage);
      if Trim(product.name) == "" || product.price == "" || product.stock == ""
         || product.category == "" || product.image.None? {
        message := Message(RequiredMessage, Danger);
        isSubmitting := false;
        assert !RequiredFilled(s.product);
        return;
      }
      assert RequiredFilled(s.product);
      Send(token, outcome);
    }

    /** The upload of a complete form and what its outcome sets. */
    method Send(token: Option<string>, outcome: UploadOutcome)
      requires product.image.Some?
      modifies this
      ensures State() == Upload(old(State()), token, outcome)
    {
      ghost var s := State();
      sent := sent + [UploadOf(product, token)];
      ghost var sending := State();
      assert sending == s.(sent := s.sent + [UploadOf(s.product, token)]);
      match outcome {
        case Added =>
          message := Message(AddedMessage, Success);
          pendingResets := pendingResets + 1;
          isSubmitting := false;
          assert State() == sending.(message := Message(AddedMessage, Success),
                                     pendingResets := s.pendingResets + 1, isSubmitting := false);
        case AddFailed(responseError, errorMessage) =>
          message := Message(FailureMessage(responseError, errorMessage), Danger);
          isSubmitting := false;
          assert State() == sending.(message := Message(FailureMessage(responseError, errorMessage), Danger),
                                     isSubmitting := false);
      }
    }

    /** The reset timer of an earlier successful upload. */
    method OnResetTimer()
      requires pendingResets > 0
      modifies this
      ensures State() == ResetFires(old(State()))
    {
      product := EmptyForm;
      preview := None;
      navigation := Some(NavigateTo("/"));
      pendingResets := pendingResets - 1;
    }

    /** The Cancel button: `navigate(-1)`. */
    method Cancel()
      modifies this
      ensures State() == old(State()).(navigation := Some(NavigateBack))
    {
      navigation := Some(NavigateBack);
    }
  }
}
