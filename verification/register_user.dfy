/** The registration form (RegisterUser.tsx): the picture is shrunk to at most
    800 pixels wide before it is previewed, the text fields are edited one at
    a time, and a submission posts the fields and the previewed picture and
    then either clears the form or reports why it failed. */
module RegisterUser {
  import opened Wrappers
  import opened Toasts

  /** The widest preview the form keeps. */
  const MaxWidth: nat := 800

  /** Canvas sizes are set through an unsigned 32-bit integer. */
  const CanvasSizeBound: nat := 0x1_0000_0000

  /** The largest size a canvas accepts; a larger one falls back to the
      default size of the dimension. */
  const MaxCanvasSize: nat := 0x7FFF_FFFF

  /** The default width and height of a canvas. */
  const DefaultCanvasWidth: nat := 300
  const DefaultCanvasHeight: nat := 150

  // ---------------------------------------------------------------------------
  // The resize arithmetic

  /** `Math.min(1, 800 / img.width)`. For a zero width the quotient is
      Infinity and the minimum is 1. */
  function ScaleFactor(width: nat): (r: real)
    ensures 0.0 < r <= 1.0
    ensures r == 1.0 <==> width <= MaxWidth
  {
    if width == 0 then 1.0
    else if 1.0 <= MaxWidth as real / width as real then 1.0
    else MaxWidth as real / width as real
  }

  /** Assigning a non-negative number to `canvas.width` or `canvas.height`:
      the fraction is dropped and the result taken modulo 2^32; a value above
      2^31 - 1 gives the dimension's default size `fallback` instead. */
  function CanvasDimension(x: real, fallback: nat): (r: nat)
    requires x >= 0.0
    ensures r <= MaxCanvasSize || r == fallback
    ensures (MaxCanvasSize + 1) as real <= x < CanvasSizeBound as real ==> r == fallback
    ensures x < (MaxCanvasSize + 1) as real ==> r as real <= x < r as real + 1.0
  {
    var v := x.Floor % CanvasSizeBound;
    if v <= MaxCanvasSize then v else fallback
  }

  /** The width of the resized canvas: unchanged up to 800, otherwise 800. */
  function ResizedWidth(width: nat): (r: nat)
    ensures width <= MaxWidth ==> r == width
    ensures MaxWidth < width <= MaxCanvasSize ==> r == MaxWidth
  {
    WideScale(width);
    CanvasDimension(width as real * ScaleFactor(width), DefaultCanvasWidth)
  }

  /** The height of the resized canvas, scaled by the width's factor. */
  function ResizedHeight(width: nat, height: nat): (r: nat)
    ensures width <= MaxWidth && height <= MaxCanvasSize ==> r == height
    ensures height <= MaxCanvasSize ==> r <= height
  {
    ScaleDown(height as real, ScaleFactor(width));
    var x := height as real * ScaleFactor(width);
    assert height <= MaxCanvasSize ==> x < (MaxCanvasSize + 1) as real;
    CanvasDimension(x, DefaultCanvasHeight)
  }

  /** A picture wider than 800 is scaled to exactly 800. */
  lemma WideScale(width: nat)
    ensures width > MaxWidth ==> width as real * ScaleFactor(width) == MaxWidth as real
  {
    if width > MaxWidth {
      var f := MaxWidth as real / width as real;
      assert ScaleFactor(width) == f;
      assert width as real * f == MaxWidth as real;
    }
  }

  /** The resized width never exceeds 800; a picture up to 800 wide keeps its
      width and a wider one becomes exactly 800 wide. */
  lemma ResizedWidthBound(width: nat)
    requires width <= MaxCanvasSize
    ensures ResizedWidth(width) <= MaxWidth
    ensures width <= MaxWidth ==> ResizedWidth(width) == width
    ensures width > MaxWidth ==> ResizedWidth(width) == MaxWidth
  {
  }

  /** A picture at most 800 wide keeps its height too. */
  lemma SmallPictureKept(width: nat, height: nat)
    requires width <= MaxWidth && height <= MaxCanvasSize
    ensures ResizedWidth(width) == width && ResizedHeight(width, height) == height
  {
  }

  /** A wider picture keeps its proportions up to the dropped fraction: the new
      height is the largest whole number `h'` with `h' * width <= height * 800`. */
  lemma ProportionalHeight(width: nat, height: nat)
    requires width > MaxWidth && height <= MaxCanvasSize
    ensures ResizedHeight(width, height) * width <= height * MaxWidth
    ensures height * MaxWidth < (ResizedHeight(width, height) + 1) * width
  {
    var w := width as real;
    var f := MaxWidth as real / w;
    assert ScaleFactor(width) == f;
    var x := height as real * f;
    assert x <= height as real by {
      assert f < 1.0;
      ScaleDown(height as real, f);
    }
    var h' := ResizedHeight(width, height);
    assert h' as real <= x < h' as real + 1.0;
    assert x * w == (height * MaxWidth) as real;
    ScaledBetween(h' as real, x, w);
  }

  lemma ScaleDown(a: real, f: real)
    requires a >= 0.0 && 0.0 < f <= 1.0
    ensures a * f <= a
  {
  }

  lemma ScaledBetween(k: real, x: real, w: real)
    requires k <= x < k + 1.0 && w > 0.0
    ensures k * w <= x * w < (k + 1.0) * w
  {
  }

  // ---------------------------------------------------------------------------
  // The form fields

  /** The three text fields. */
  datatype FormState = FormState(name: string, contact: string, carPlate: string)

  const EmptyForm: FormState := FormState("", "", "")

  /** The value of the input named `key`, for the three inputs the form has. */
  function FieldOf(f: FormState, key: string): Option<string> {
    if key == "name" then Some(f.name)
    else if key == "contact" then Some(f.contact)
    else if key == "carPlate" then Some(f.carPlate)
    else None
  }

  /** `{ ...prev, [name]: value }`: the named field takes the value. */
  function WithField(f: FormState, key: string, value: string): (r: FormState)
    ensures FieldOf(f, key).Some? ==> FieldOf(r, key) == Some(value)
    ensures forall k :: k != key ==> FieldOf(r, k) == FieldOf(f, k)
  {
    if key == "name" then f.(name := value)
    else if key == "contact" then f.(contact := value)
    else if key == "carPlate" then f.(carPlate := value)
    else f
  }

  /** Writing a field's own value back changes nothing, and a second write
      to the same field overrides the first. */
  lemma WithFieldLaws(f: FormState, key: string, v: string, w: string)
    ensures FieldOf(f, key).Some? ==> WithField(f, key, FieldOf(f, key).value) == f
    ensures WithField(WithField(f, key, v), key, w) == WithField(f, key, w)
  {
  }

  // ---------------------------------------------------------------------------
  // The submission

  /** One entry of the multipart body: a text field, or the picture fetched
      from the preview's data URL under the file name `<name>.jpg`. */
  datatype Part = TextPart(key: string, value: string) | ImagePart(source: string, fileName: string)

  /** An empty string is falsy, so only a non-empty preview is attached. */
  predicate HasPreview(preview: Option<string>) {
    preview.Some? && preview.value != ""
  }

  /** The body `handleSubmit` posts: the three fields in order, then the
      picture when there is a preview. */
  function RequestParts(form: FormState, preview: Option<string>): (r: seq<Part>)
    ensures |r| >= 3 && r[0].TextPart? && r[1].TextPart? && r[2].TextPart?
    ensures forall i :: 0 <= i < 3 ==> FieldOf(form, r[i].key) == Some(r[i].value)
    ensures r[0] == TextPart("name", form.name) && r[1] == TextPart("contact", form.contact)
    ensures r[2] == TextPart("carPlate", form.carPlate)
    ensures |r| == 4 <==> HasPreview(preview)
    ensures |r| == 3 || |r| == 4
    ensures |r| == 4 ==> r[3] == ImagePart(preview.value, form.name + ".jpg")
  {
    var fields := [TextPart("name", form.name), TextPart("contact", form.contact),
                   TextPart("carPlate", form.carPlate)];
    if HasPreview(preview) then fields + [ImagePart(preview.value, form.name + ".jpg")] else fields
  }

  /** How the request ended: `Thrown` when fetching the preview, posting or
      reading the JSON failed, with the message when the thrown value is an
      `Error`; `Replied` with the body's `status` and `message`. */
  datatype SubmitOutcome =
    | Thrown(errorMessage: Option<string>)
    | Replied(status: Option<string>, message: Option<string>)

  const SuccessStatus: string := "success"
  const FallbackError: string := "Failed to register user"

  predicate Succeeded(outcome: SubmitOutcome) {
    outcome.Replied? && outcome.status == Some(SuccessStatus)
  }

  /** The text of the error toast: a reply's non-empty `message`, else the
      fallback; for a thrown `Error` its message, else the fallback. */
  function FailureText(outcome: SubmitOutcome): (r: string)
    requires !Succeeded(outcome)
    ensures outcome.Replied? && outcome.message.Some? && outcome.message.value != "" ==>
      r == outcome.message.value
    ensures outcome.Replied? && (outcome.message.None? || outcome.message.value == "") ==>
      r == FallbackError
    ensures outcome.Thrown? && outcome.errorMessage.Some? ==> r == outcome.errorMessage.value
    ensures outcome.Thrown? && outcome.errorMessage.None? ==> r == FallbackError
    ensures r == "" ==> outcome.Thrown? && outcome.errorMessage == Some("")
  {
    match outcome
    case Replied(_, message) =>
      if message.Some? && message.value != "" then message.value else FallbackError
    case Thrown(errorMessage) =>
      if errorMessage.Some? then errorMessage.value else FallbackError
  }

  /** A picture the user picked, as the browser decoded it. */
  datatype Picture = Picture(width: nat, height: nat)

  /** The form's state: the fields, the resized preview as a data URL, and
      whether a submission is under way. */
  class RegisterForm {
    var formData: FormState
    var imagePreview: Option<string>
    var isLoading: bool

    constructor ()
      ensures formData == EmptyForm && imagePreview == None && !isLoading
    {
      formData := EmptyForm;
      imagePreview := None;
      isLoading := false;
    }

    /** `handleImageChange` through `img.onload`: the preview becomes the data
        URL (`encode`) of the picture drawn on a canvas of the resized size.
        `None` stands for no file picked, or a picture that never loads. */
    method HandleImageChange(picked: Option<Picture>, encode: (nat, nat) -> string)
      modifies this
      ensures picked.Some? ==>
        imagePreview == Some(encode(ResizedWidth(picked.value.width),
                                    ResizedHeight(picked.value.width, picked.value.height)))
      ensures picked.None? ==> imagePreview == old(imagePreview)
      ensures formData == old(formData) && isLoading == old(isLoading)
    {
      if picked.Some? {
        var width := ResizedWidth(picked.value.width);
        var height := ResizedHeight(picked.value.width, picked.value.height);
        imagePreview := Some(encode(width, height));
      }
    }

    /** `handleInputChange`: the input named `key` takes `value`. */
    method HandleInputChange(key: string, value: string)
      modifies this
      ensures formData == WithField(old(formData), key, value)
      ensures imagePreview == old(imagePreview) && isLoading == old(isLoading)
    {
      formData := WithField(formData, key, value);
    }

    /** `handleSubmit` up to its first `await`: the button is enabled and the
        browser lets the form through only with the required fields filled.
        The loading flag is raised and the request body is fixed from the
        current fields and preview. */
    method BeginSubmit() returns (parts: seq<Part>)
      requires !isLoading
      requires formData.name != "" && formData.contact != "" && formData.carPlate != ""
      modifies this
      ensures isLoading
      ensures parts == RequestParts(formData, imagePreview)
      ensures formData == old(formData) && imagePreview == old(imagePreview)
    {
      isLoading := true;
      parts := [TextPart("name", formData.name), TextPart("contact", formData.contact),
                TextPart("carPlate", formData.carPlate)];
      if imagePreview.Some? && imagePreview.value != "" {
        parts := parts + [ImagePart(imagePreview.value, formData.name + ".jpg")];
      }
    }

    /** `handleSubmit` after the request: on success the form and the preview
        are cleared, otherwise both are kept and the error toast says why; the
        loading flag is dropped either way. */
    method FinishSubmit(outcome: SubmitOutcome) returns (toast: Toast)
      requires isLoading
      modifies this
      ensures !isLoading
      ensures Succeeded(outcome) ==>
        formData == EmptyForm && imagePreview == None &&
        toast == Toast("Success", "User registered successfully", false)
      ensures !Succeeded(outcome) ==>
        formData == old(formData) && imagePreview == old(imagePreview) &&
        toast == Toast("Error", FailureText(outcome), true)
    {
      if outcome.Replied? && outcome.status == Some(SuccessStatus) {
        toast := Toast("Success", "User registered successfully", false);
        formData := EmptyForm;
        imagePreview := None;
      } else {
        toast := Toast("Error", FailureText(outcome), true);
      }
      isLoading := false;
    }
  }
}
