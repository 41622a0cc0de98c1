/** views/patient/ScanAnnotatorModule.tsx: the patient-side scan annotator.
    The annotations become viewer findings, and the file, analyse and edit
    handlers reset and set the module's state. The annotation and edit calls
    are inputs (`Reply` values). */
module ScanAnnotator {
  import opened Wrappers
  import opened Types
  import opened Text

  /** `findingsForViewer`: nothing while there are no annotations or once an
      edited image is shown; otherwise one finding per annotation, numbered
      from 0, with full confidence. */
  function FindingsForViewer(annotations: Option<seq<AnatomicalAnnotation>>, editedImageUrl: Option<string>)
    : (fs: seq<Finding>)
    ensures annotations.None? || Truthy(editedImageUrl) ==> fs == []
    ensures annotations.Some? && !Truthy(editedImageUrl) ==>
      var anns := annotations.value;
      && |fs| == |anns|
      && forall i :: 0 <= i < |fs| ==>
           && fs[i].id == NatToString(i)
           && fs[i].confidence == 1.0
           && fs[i].labelText == anns[i].labelText
           && fs[i].description == anns[i].description
           && fs[i].boundingBox == anns[i].boundingBox
  {
    if annotations.Some? && !Truthy(editedImageUrl) then
      var anns := annotations.value;
      seq(|anns|, i requires 0 <= i < |anns| =>
        Finding(NatToString(i), anns[i].labelText, anns[i].description, anns[i].boundingBox, 1.0))
    else []
  }

  /** The viewer's findings have pairwise distinct ids. */
  lemma FindingIdsDistinct(annotations: Option<seq<AnatomicalAnnotation>>, editedImageUrl: Option<string>)
    ensures var fs := FindingsForViewer(annotations, editedImageUrl);
      forall i, j :: 0 <= i < j < |fs| ==> fs[i].id != fs[j].id
  {
    var fs := FindingsForViewer(annotations, editedImageUrl);
    forall i, j | 0 <= i < j < |fs| ensures fs[i].id != fs[j].id {
      if fs[i].id == fs[j].id {
        NatToStringInjective(i, j);
      }
    }
  }

  const NoScanMessage := "Please upload a scan to annotate."
  const AnnotationFailedMessage :=
    "Annotation failed. Please ensure the image is a clear medical scan (e.g., X-ray) and try again."
  const EditFailedMessage := "Sorry, I couldn't edit the image right now."

  /** The module's state fields. */
  class Annotator {
    var file: Option<FileInfo>
    var imageDataUrl: Option<string>
    var isLoading: bool
    var annotations: Option<seq<AnatomicalAnnotation>>
    var error: Option<string>
    var editedImageUrl: Option<string>
    var chatPrompt: string
    var chatResponseText: Option<string>
    var isChatLoading: bool

    constructor ()
      ensures file.None? && imageDataUrl.None? && !isLoading && annotations.None?
      ensures error.None? && editedImageUrl.None? && chatPrompt == ""
      ensures chatResponseText.None? && !isChatLoading
    {
      file := None;
      imageDataUrl := None;
      isLoading := false;
      annotations := None;
      error := None;
      editedImageUrl := None;
      chatPrompt := "";
      chatResponseText := None;
      isChatLoading := false;
    }

    /** The findings shown for the current state. */
    function Findings(): seq<Finding>
      reads this
    {
      FindingsForViewer(annotations, editedImageUrl)
    }

    /** `handleFileChange` with a chosen file read as `dataUrl`: the earlier
        annotations, edit, chat answer and error are discarded. */
    method FileChange(chosen: FileInfo, dataUrl: string)
      modifies this
      ensures file == Some(chosen) && imageDataUrl == Some(dataUrl)
      ensures annotations.None? && editedImageUrl.None? && chatResponseText.None? && error.None?
      ensures isLoading == old(isLoading) && chatPrompt == old(chatPrompt)
      ensures isChatLoading == old(isChatLoading)
      ensures Findings() == []
    {
      file := Some(chosen);
      imageDataUrl := Some(dataUrl);
      annotations := None;
      editedImageUrl := None;
      chatResponseText := None;
      error := None;
    }

    /** The text field of the chat box. */
    method SetChatPrompt(text: string)
      modifies this
      ensures chatPrompt == text
      ensures file == old(file) && imageDataUrl == old(imageDataUrl) && isLoading == old(isLoading)
      ensures annotations == old(annotations) && error == old(error)
      ensures editedImageUrl == old(editedImageUrl) && chatResponseText == old(chatResponseText)
      ensures isChatLoading == old(isChatLoading)
    {
      chatPrompt := text;
    }

    /** `handleAnalyze`, with the annotation service's reply as input.
        Returns whether the service was called. */
    method Analyze(reply: Reply<seq<AnatomicalAnnotation>>) returns (called: bool)
      modifies this
      ensures called <==> old(file).Some? && Truthy(old(imageDataUrl))
      ensures !called ==>
        && error == Some(NoScanMessage)
        && file == old(file) && imageDataUrl == old(imageDataUrl) && isLoading == old(isLoading)
        && annotations == old(annotations) && editedImageUrl == old(editedImageUrl)
        && chatResponseText == old(chatResponseText)
      ensures called ==>
        && !isLoading && editedImageUrl.None? && chatResponseText.None?
        && file == old(file) && imageDataUrl == old(imageDataUrl)
      ensures called && reply.Answered? ==> annotations == Some(reply.value) && error.None?
      ensures called && reply.Failed? ==> annotations.None? && error == Some(AnnotationFailedMessage)
      ensures chatPrompt == old(chatPrompt) && isChatLoading == old(isChatLoading)
    {
      if file.None? || !Truthy(imageDataUrl) {
        error := Some(NoScanMessage);
        return false;
      }
      isLoading := true;
      annotations := None;
      error := None;
      editedImageUrl := None;
      chatResponseText := None;
      match reply {
        case Answered(result) => annotations := Some(result);
        case Failed(_) => error := Some(AnnotationFailedMessage);
      }
      isLoading := false;
      return true;
    }

    /** The guard of `handleImageEdit`: a non-blank prompt, an image and a file. */
    predicate CanEdit()
      reads this
    {
      !IsBlank(chatPrompt) && Truthy(imageDataUrl) && file.Some?
    }

    /** `handleImageEdit`, with the edit service's reply as input. A blank
        prompt, a missing image or a missing file leaves everything as it
        was. Returns whether the service was called. */
    method ImageEdit(reply: Reply<EditedImageResponse>) returns (called: bool)
      modifies this
      ensures called <==> old(CanEdit())
      ensures !called ==>
        && error == old(error) && editedImageUrl == old(editedImageUrl)
        && chatResponseText == old(chatResponseText) && isChatLoading == old(isChatLoading)
      ensures called ==> !isChatLoading
      ensures called && reply.Answered? ==>
        && editedImageUrl == Some(reply.value.imageDataUrl)
        && chatResponseText == Some(reply.value.text)
        && error == old(error)
      ensures called && reply.Failed? ==>
        && editedImageUrl == old(editedImageUrl) && chatResponseText.None?
        && error == Some(EditFailedMessage)
      ensures file == old(file) && imageDataUrl == old(imageDataUrl) && isLoading == old(isLoading)
      ensures annotations == old(annotations) && chatPrompt == old(chatPrompt)
    {
      if !CanEdit() {
        return false;
      }
      isChatLoading := true;
      chatResponseText := None;
      match reply {
        case Answered(result) =>
          editedImageUrl := Some(result.imageDataUrl);
          chatResponseText := Some(result.text);
        case Failed(_) =>
          error := Some(EditFailedMessage);
      }
      isChatLoading := false;
      return true;
    }
  }

  /** An edit that comes back with a non-empty image URL hides the
      annotation boxes. */
  lemma EditHidesFindings(annotations: Option<seq<AnatomicalAnnotation>>, edited: EditedImageResponse)
    requires edited.imageDataUrl != ""
    ensures FindingsForViewer(annotations, Some(edited.imageDataUrl)) == []
  {
  }
}
