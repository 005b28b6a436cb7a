/** The prompt form, in both of its versions: `src/components/PromptForm.tsx`
    (`Src`) and `components/PromptForm.tsx` (`Root`). Both share the
    character counter's thresholds, the image picker and the rule that the
    form is frozen while a request runs; they differ in the counter's colours
    and in the textarea's length limit. */
module PromptForm {
  import opened Wrappers

  datatype Variant = Root | Src

  // -------------------------------------------------------------- counter

  /** `MAX_PROMPT_LENGTH`. */
  const MaxPromptLength: nat := 400
  /** `MAX_PROMPT_LENGTH * 0.9`: the double product is exactly 360. */
  const WarningLength: nat := 360

  function OverColor(v: Variant): string
  {
    if v == Src then "text-red-400" else "text-red-500"
  }

  const WarningColor: string := "text-yellow-400"

  function CalmColor(v: Variant): string
  {
    if v == Src then "text-gray-500" else "text-gray-400"
  }

  /** `counterColor` for a prompt of `length` UTF-16 units: over the limit,
      within its last tenth, or comfortably below. */
  function CounterColor(v: Variant, length: nat): (c: string)
    ensures c == OverColor(v) <==> length > MaxPromptLength
    ensures c == WarningColor <==> WarningLength < length <= MaxPromptLength
    ensures c == CalmColor(v) <==> length <= WarningLength
  {
    if length > MaxPromptLength then OverColor(v)
    else if length > WarningLength then WarningColor
    else CalmColor(v)
  }

  /** How urgent a colour is: 0 calm, 1 warning, 2 over. */
  function Severity(v: Variant, c: string): nat
  {
    if c == OverColor(v) then 2 else if c == WarningColor then 1 else 0
  }

  /** A longer prompt never shows a calmer colour. */
  lemma CounterColorMonotone(v: Variant, shorter: nat, longer: nat)
    requires shorter <= longer
    ensures Severity(v, CounterColor(v, shorter)) <= Severity(v, CounterColor(v, longer))
  {
  }

  /** The textarea's `maxLength`: `MAX_PROMPT_LENGTH + 50` in `Src`, none in
      `Root`. */
  function MaxInputLength(v: Variant): (m: Option<nat>)
    ensures v == Src ==> m == Some(MaxPromptLength + 50)
    ensures v == Root ==> m.None?
  {
    if v == Src then Some(MaxPromptLength + 50) else None
  }

  /** In `Src`, a prompt the textarea holds shows the over-limit colour only
      in the 50 characters of allowed overflow. */
  lemma SrcOverflowBand(length: nat)
    requires length <= MaxInputLength(Src).value
    ensures CounterColor(Src, length) == OverColor(Src) <==> 400 < length <= 450
  {
  }

  // ------------------------------------------------------------- controls

  datatype Control = Textarea | StandardButton | HdButton | UploadButton | SubmitButton | FileInput | RemoveImageButton

  /** Every control carries `disabled={isLoading}` except the button that
      removes the image, which has no `disabled` attribute. */
  function Enabled(c: Control, isLoading: bool): (e: bool)
    ensures !isLoading ==> e
    ensures isLoading ==> (e <==> c == RemoveImageButton)
  {
    c == RemoveImageButton || !isLoading
  }

  /** While a request runs, nothing can change the prompt, the quality or
      the chosen file, and nothing can submit again. */
  lemma FrozenWhileLoading(c: Control)
    requires c in {Textarea, StandardButton, HdButton, UploadButton, SubmitButton, FileInput}
    ensures !Enabled(c, true)
  {
  }

  // ---------------------------------------------------------- image picker

  /** A file picked by the user, with the data URL `readAsDataURL` yields. */
  datatype File = File(name: string, dataUrl: string)

  /** The image file held by the parent (through `setImageFile`), the
      preview, and the selection of the hidden file input. */
  datatype Picker = Picker(imageFile: Option<File>, imagePreview: Option<string>, selection: Option<File>)

  const NoImage: Picker := Picker(None, None, None)

  /** The input's selection became `chosen`, then `handleImageChange` ran:
      a file is handed to the parent at once (its preview follows when the
      read ends); no file clears both the file and the preview. */
  function Changed(p: Picker, chosen: Option<File>): (r: Picker)
    ensures r.selection == chosen
    ensures chosen.Some? ==> r.imageFile == chosen && r.imagePreview == p.imagePreview
    ensures chosen.None? ==> r.imageFile.None? && r.imagePreview.None?
  {
    if chosen.Some? then p.(selection := chosen, imageFile := chosen)
    else Picker(None, None, None)
  }

  /** `reader.onloadend` of a read started on `f`: the preview is its data
      URL. */
  function Loaded(p: Picker, f: File): (r: Picker)
    ensures r.imagePreview == Some(f.dataUrl)
    ensures r.imageFile == p.imageFile && r.selection == p.selection
  {
    p.(imagePreview := Some(f.dataUrl))
  }

  /** `handleRemoveImage`: no file, no preview, and the input's value set to
      the empty string, which empties its selection. */
  function Removed(p: Picker): (r: Picker)
    ensures r == NoImage
  {
    Picker(None, None, None)
  }

  /** Cancelling the file dialog ends where removing the image does. */
  lemma CancelMatchesRemove(p: Picker)
    ensures Changed(p, None) == Removed(p)
  {
  }

  /** Picking a file and letting its read finish shows that very file. */
  lemma PickThenLoad(p: Picker, f: File)
    ensures var r := Loaded(Changed(p, Some(f)), f);
      r.imageFile == Some(f) && r.selection == Some(f) && r.imagePreview == Some(f.dataUrl)
  {
  }

  /** The upload button's label in `Src`: "change image" once a preview is
      shown, "add image" before. */
  function UploadLabel(p: Picker): (text: string)
    ensures text == "تغيير الصورة" <==> p.imagePreview.Some?
    ensures text == "إضافة صورة" <==> p.imagePreview.None?
  {
    if p.imagePreview.Some? then "تغيير الصورة" else "إضافة صورة"
  }

  /** The form's image state. */
  class ImagePicker {
    var imageFile: Option<File>
    var imagePreview: Option<string>
    var selection: Option<File>

    function State(): Picker
      reads this
    {
      Picker(imageFile, imagePreview, selection)
    }

    constructor ()
      ensures State() == NoImage
    {
      imageFile, imagePreview, selection := None, None, None;
    }

    method HandleImageChange(chosen: Option<File>)
      modifies this
      ensures State() == Changed(old(State()), chosen)
    {
      selection := chosen;
      if chosen.Some? {
        imageFile := chosen;
      } else {
        imageFile := None;
        imagePreview := None;
      }
    }

    method HandleReadEnd(f: File)
      modifies this
      ensures State() == Loaded(old(State()), f)
    {
      imagePreview := Some(f.dataUrl);
    }

    method HandleRemoveImage()
      modifies this
      ensures State() == Removed(old(State()))
    {
      imageFile := None;
      imagePreview := None;
      selection := None;
    }
  }
}
