/** The upload/generate page: the mock image generator and the page's state,
    with every timer or awaited step split into the handler that starts it and
    the event that completes it. */
module Upload {
  import opened Seqs
  import FileUpload
  import GenerationForm

  /** The placeholder image service the mock generator points at. */
  const UrlPrefix: string := "https://source.unsplash.com/random/600x600?"

  datatype GenerationResult = GenerationResult(url: string, prompt: string)

  /** `s.split(sep)` for a one-character separator: the pieces between
      separators, empty pieces included, and `[""]` for the empty string. */
  function Split(s: string, sep: char): (parts: seq<string>)
    ensures |parts| >= 1
  {
    if s == [] then [[]]
    else
      var rest := Split(s[1..], sep);
      if s[0] == sep then [[]] + rest else [[s[0]] + rest[0]] + rest[1..]
  }

  /** The total length of `parts`. */
  function TotalLength(parts: seq<string>): nat {
    if parts == [] then 0 else |parts[0]| + TotalLength(parts[1..])
  }

  /** `parts.join(sep)` for a one-character separator: the parts in order,
      one separator between each two. */
  function Join(parts: seq<string>, sep: char): (s: string)
    ensures parts != [] ==> |s| == TotalLength(parts) + |parts| - 1
    ensures parts != [] ==> parts[0] <= s
    ensures |parts| >= 2 ==> s[|parts[0]|] == sep
  {
    if parts == [] then []
    else if |parts| == 1 then parts[0]
    else parts[0] + [sep] + Join(parts[1..], sep)
  }

  /** `s` with every `from` character replaced by `to`. */
  function Replaced(s: string, from: char, to: char): string {
    seq(|s|, i requires 0 <= i < |s| => if s[i] == from then to else s[i])
  }

  /** Splitting at one character and joining with another replaces every
      occurrence of the first by the second. */
  lemma {:induction false} JoinSplitReplaces(s: string, from: char, to: char)
    ensures Join(Split(s, from), to) == Replaced(s, from, to)
  {
    if s != [] {
      var rest := Split(s[1..], from);
      JoinSplitReplaces(s[1..], from, to);
      assert Replaced(s, from, to) == [Replaced(s, from, to)[0]] + Replaced(s[1..], from, to);
      if s[0] == from {
        assert Split(s, from) == [[]] + rest;
        assert Join([[]] + rest, to) == [to] + Join(rest, to);
      } else if |rest| == 1 {
        assert Split(s, from) == [[s[0]] + rest[0]];
      } else {
        assert Split(s, from) == [[s[0]] + rest[0]] + rest[1..];
        assert Join(rest, to) == rest[0] + [to] + Join(rest[1..], to);
      }
    }
  }

  /** The generator's result once its delay is over. */
  function MockGenerateImage(prompt: string): (r: GenerationResult)
    // the prompt is echoed unchanged
    ensures r.prompt == prompt
    // the URL is the prefix followed by the prompt with spaces turned into commas
    ensures |r.url| == |UrlPrefix| + |prompt|
    ensures r.url[..|UrlPrefix|] == UrlPrefix
    ensures forall i :: 0 <= i < |prompt| ==>
      r.url[|UrlPrefix| + i] == if prompt[i] == ' ' then ',' else prompt[i]
    ensures r.url != []
  {
    JoinSplitReplaces(prompt, ' ', ',');
    GenerationResult(UrlPrefix + Join(Split(prompt, ' '), ','), prompt)
  }

  /** The argument the Regenerate button passes: the last result's prompt, or
      the empty string when there is none. */
  function RegeneratePrompt(generatedImage: Option<GenerationResult>): (p: string)
    ensures generatedImage.Some? ==> p == generatedImage.value.prompt
    ensures generatedImage.None? ==> p == ""
  {
    if generatedImage.Some? && generatedImage.value.prompt != "" then generatedImage.value.prompt else ""
  }

  /** The page's state. `pendingGenerations` holds the prompts of generation
      calls that have started and not yet settled, oldest first;
      `pendingTimers` counts processing timers that have not yet fired. */
  class UploadPage {
    var selectedFiles: seq<FileUpload.File>
    var isProcessing: bool
    var isGenerating: bool
    var generatedImage: Option<GenerationResult>
    var showPreviewModal: bool
    const remainingGenerations: int
    var pendingGenerations: seq<string>
    var pendingTimers: nat

    /** The shown image is the generator's result for its prompt, and a
        generating or processing flag that is set has a call or timer behind it. */
    ghost predicate Valid()
      reads this
    {
      && (generatedImage.Some? ==> generatedImage.value == MockGenerateImage(generatedImage.value.prompt))
      && (isGenerating ==> pendingGenerations != [])
      && (isProcessing ==> pendingTimers > 0)
    }

    constructor ()
      ensures selectedFiles == [] && !isProcessing && !isGenerating
      ensures generatedImage == None && !showPreviewModal && remainingGenerations == 5
      ensures pendingGenerations == [] && pendingTimers == 0
      ensures Valid()
    {
      selectedFiles := [];
      isProcessing := false;
      isGenerating := false;
      generatedImage := None;
      showPreviewModal := false;
      remainingGenerations := 5;
      pendingGenerations := [];
      pendingTimers := 0;
    }

    /** The file widget's `onFilesSelected`: the widget's list replaces the selection. */
    method HandleFilesSelected(files: seq<FileUpload.File>)
      requires Valid()
      modifies this
      ensures Valid()
      ensures selectedFiles == files
      ensures isProcessing == old(isProcessing) && isGenerating == old(isGenerating)
      ensures generatedImage == old(generatedImage) && showPreviewModal == old(showPreviewModal)
      ensures pendingGenerations == old(pendingGenerations) && pendingTimers == old(pendingTimers)
    {
      selectedFiles := files;
    }

    /** The Process Images button: with nothing selected nothing happens;
        otherwise processing starts and a timer is set. */
    method HandleProcessFiles()
      requires Valid()
      modifies this
      ensures Valid()
      ensures old(selectedFiles) == [] ==> unchanged(this)
      ensures old(selectedFiles) != [] ==>
        && isProcessing
        && pendingTimers == old(pendingTimers) + 1
        && selectedFiles == old(selectedFiles) && isGenerating == old(isGenerating)
        && generatedImage == old(generatedImage) && showPreviewModal == old(showPreviewModal)
        && pendingGenerations == old(pendingGenerations)
    {
      if |selectedFiles| == 0 {
        return;
      }
      isProcessing := true;
      pendingTimers := pendingTimers + 1;
    }

    /** A processing timer fires. */
    method ProcessingTimerFired()
      requires Valid()
      requires pendingTimers > 0
      modifies this
      ensures Valid()
      ensures !isProcessing
      ensures pendingTimers == old(pendingTimers) - 1
      ensures selectedFiles == old(selectedFiles) && isGenerating == old(isGenerating)
      ensures generatedImage == old(generatedImage) && showPreviewModal == old(showPreviewModal)
      ensures pendingGenerations == old(pendingGenerations)
    {
      isProcessing := false;
      pendingTimers := pendingTimers - 1;
    }

    /** `handleGenerateImage(prompt)` up to its `await`: generating starts and
        the call is pending. It checks neither the prompt nor `isGenerating`. */
    method HandleGenerateImage(prompt: string)
      requires Valid()
      modifies this
      ensures Valid()
      ensures isGenerating
      ensures pendingGenerations == old(pendingGenerations) + [prompt]
      ensures selectedFiles == old(selectedFiles) && isProcessing == old(isProcessing)
      ensures generatedImage == old(generatedImage) && showPreviewModal == old(showPreviewModal)
      ensures pendingTimers == old(pendingTimers)
    {
      isGenerating := true;
      pendingGenerations := pendingGenerations + [prompt];
    }

    /** The pending call `k` resolves: its result replaces the shown image, the
        preview opens, and the `finally` clears `isGenerating` (even if other
        calls are still pending). */
    method GenerationResolved(k: nat)
      requires Valid()
      requires k < |pendingGenerations|
      modifies this
      ensures Valid()
      ensures generatedImage == Some(MockGenerateImage(old(pendingGenerations)[k]))
      ensures generatedImage.value.prompt == old(pendingGenerations)[k]
      ensures showPreviewModal && !isGenerating
      ensures pendingGenerations == old(pendingGenerations)[..k] + old(pendingGenerations)[k + 1..]
      ensures selectedFiles == old(selectedFiles) && isProcessing == old(isProcessing)
      ensures pendingTimers == old(pendingTimers)
    {
      var result := MockGenerateImage(pendingGenerations[k]);
      generatedImage := Some(result);
      showPreviewModal := true;
      isGenerating := false;
      pendingGenerations := pendingGenerations[..k] + pendingGenerations[k + 1..];
    }

    /** The pending call `k` rejects (the mock never does): the error is only
        logged, and the `finally` clears `isGenerating`. */
    method GenerationRejected(k: nat)
      requires Valid()
      requires k < |pendingGenerations|
      modifies this
      ensures Valid()
      ensures !isGenerating
      ensures pendingGenerations == old(pendingGenerations)[..k] + old(pendingGenerations)[k + 1..]
      ensures generatedImage == old(generatedImage) && showPreviewModal == old(showPreviewModal)
      ensures selectedFiles == old(selectedFiles) && isProcessing == old(isProcessing)
      ensures pendingTimers == old(pendingTimers)
    {
      isGenerating := false;
      pendingGenerations := pendingGenerations[..k] + pendingGenerations[k + 1..];
    }

    /** The form's submit, wired to this page: the form sees `isGenerating` as
        its `isLoading`, and forwards the trimmed prompt to `HandleGenerateImage`. */
    method SubmitGenerationForm(form: GenerationForm.Form)
      requires Valid()
      modifies this
      ensures Valid()
      ensures old(isGenerating) || GenerationForm.IsBlank(form.prompt) ==> unchanged(this)
      ensures !old(isGenerating) && !GenerationForm.IsBlank(form.prompt) ==>
        && isGenerating
        && pendingGenerations == old(pendingGenerations) + [GenerationForm.Trim(form.prompt)]
        && selectedFiles == old(selectedFiles) && isProcessing == old(isProcessing)
        && generatedImage == old(generatedImage) && showPreviewModal == old(showPreviewModal)
        && pendingTimers == old(pendingTimers)
    {
      var submitted := form.HandleSubmit(isGenerating);
      if submitted.Some? {
        HandleGenerateImage(submitted.value);
      }
    }

    /** The preview dialog's Regenerate button: calls `handleGenerateImage`
        directly, bypassing the form's blank-prompt and loading checks. */
    method HandleRegenerate()
      requires Valid()
      modifies this
      ensures Valid()
      ensures isGenerating
      ensures pendingGenerations == old(pendingGenerations) + [RegeneratePrompt(old(generatedImage))]
      ensures generatedImage == old(generatedImage) && showPreviewModal == old(showPreviewModal)
      ensures selectedFiles == old(selectedFiles) && isProcessing == old(isProcessing)
      ensures pendingTimers == old(pendingTimers)
    {
      HandleGenerateImage(RegeneratePrompt(generatedImage));
    }

    /** The dialog's `onOpenChange` and its Close button. */
    method SetShowPreviewModal(open: bool)
      requires Valid()
      modifies this
      ensures Valid()
      ensures showPreviewModal == open
      ensures selectedFiles == old(selectedFiles) && isProcessing == old(isProcessing)
      ensures isGenerating == old(isGenerating) && generatedImage == old(generatedImage)
      ensures pendingGenerations == old(pendingGenerations) && pendingTimers == old(pendingTimers)
    {
      showPreviewModal := open;
    }

    /** The Download button; the result is the URL handed to the browser's
        download, or `None` when there is no image and nothing happens. */
    method HandleDownloadGenerated() returns (download: Option<string>)
      requires Valid()
      ensures download.None? <==> generatedImage.None?
      ensures download.Some? ==> download.value == generatedImage.value.url
      ensures download.Some? ==> download.value[..|UrlPrefix|] == UrlPrefix
    {
      if generatedImage.None? {
        return None;
      }
      download := Some(generatedImage.value.url);
    }
  }

  /** Submitting "a red cat" and letting the call resolve shows a result for
      that prompt with a non-empty URL, in an open preview. */
  method SubmitAndResolve() returns (shown: GenerationResult, modalOpen: bool)
    ensures shown.prompt == "a red cat" && shown.url != [] && modalOpen
  {
    var page := new UploadPage();
    var form := new GenerationForm.Form();
    form.HandleChange("  a red cat ");
    assert !GenerationForm.IsWhitespace(form.prompt[2]);
    page.SubmitGenerationForm(form);
    assert GenerationForm.Trim("  a red cat ") == "a red cat" by {
      assert GenerationForm.LeadingWhitespace("  a red cat ") == 2;
    }
    page.GenerationResolved(0);
    shown, modalOpen := page.generatedImage.value, page.showPreviewModal;
  }

  /** Regenerate while a generation is pending puts a second call in flight:
      the page does not keep at most one generation pending. */
  method RegenerateWhileGenerating() returns (inFlight: nat, generating: bool)
    ensures inFlight == 2 && generating
  {
    var page := new UploadPage();
    page.HandleGenerateImage("a red cat");
    page.GenerationResolved(0);
    page.HandleRegenerate();
    page.HandleRegenerate();
    inFlight, generating := |page.pendingGenerations|, page.isGenerating;
  }
}
