# Imagify front end: a verified model of its stateful logic

Most of the Imagify site is rendering. This project models the parts that
carry logic, each in its own module:

- `FileUpload` (`file_upload.dfy`): the file-selection widget. It holds a
  list of files and a drag-active flag. The file input and drag-and-drop both
  keep the files whose media type is in an allow-list, append them and cut
  the list to `maxFiles`. Single files can be removed, and the whole list can
  be cleared. Every change is reported to the parent through
  `onFilesSelected`. The widget is a class. The reports to the parent are a
  log field that each method extends.
- `GenerationForm` (`generation_form.dfy`): the prompt form. It has
  `String.prototype.trim`, the submit guard (not blank, not loading), the
  condition under which the submit button is disabled, and the `prompt`
  field.
- `Upload` (`upload.dfy`): the upload/generate page. It has the mock
  generator, which joins the split prompt into a URL and echoes the prompt.
  The page's state is a class. Each timer or `await` is split into the
  handler that starts it and the event that completes it. Calls and timers
  that have started but not finished are kept in fields.
- `Gallery` (`gallery.dfy`): the gallery search. It shows the eight fixed
  mock images whose prompt contains the query, ignoring case.
- `Animations` (`animations.dfy`): `useStaggeredAnimation`. Item `i` gets
  the delay `baseDelay + i * staggerAmount`.
- `Seqs` (`seqs.dfy`): an `Option` type and the order-preserving filter that
  both the widget and the gallery use. Lemmas prove that the filter keeps
  exactly the elements that pass, in their original order.

JavaScript library behaviour is written out where the code depends on it:

- `slice(0, end)` with a negative or oversized `end`.
- `splice(i, 1)` with a negative or out-of-range index.
- `split(' ')` and `join(',')`, including the empty string.
- `includes('')`, which is always true.

Because the form disables its button while generating, one might expect the
page to keep at most one generation in flight. The code does not keep that:
the preview dialog's Regenerate button (src/pages/Upload.tsx:187) calls
`handleGenerateImage` directly. That skips both the form's blank-prompt
check and its loading check. The model follows the code:

- `SubmitGenerationForm` proves that the form alone never starts a call
  while one is generating.
- `RegenerateWhileGenerating` shows two calls in flight at once.

## Model

| member | source | states |
|---|---|---|
| `Seqs.Filter` | src/components/ui-custom/FileUpload.tsx:24-26 | `Array.prototype.filter` never lengthens the list |
| `Seqs.FilterPicksOut` | src/pages/Gallery.tsx:68-70 | the filter's result is the subsequence of kept positions. The positions increase and point at the kept elements in order. A position is kept exactly when its element passes. |
| `Seqs.FilterMembers` | src/components/ui-custom/FileUpload.tsx:24-26 | an element is in the filter's result exactly when it is in the input and passes |
| `FileUpload.ValidFiles` | src/components/ui-custom/FileUpload.tsx:24-26 | the valid files are exactly the incoming files whose media type is in `acceptedFileTypes`, and there are no more of them than incoming files. Rejected files are dropped without an error. |
| `FileUpload.SliceTo` | src/components/ui-custom/FileUpload.tsx:28 | `slice(0, end)` returns a prefix. It has `min(end, n)` elements for `end >= 0` and `max(0, n + end)` elements for a negative `end`. |
| `FileUpload.AddFiles` | src/components/ui-custom/FileUpload.tsx:23-28 | after an add the list has at most `maxFiles` entries. Every entry was either already selected or is an accepted incoming file. If the old list was within capacity, it stays as an unchanged prefix. It is followed by the accepted files in input order, earliest first, up to the room left. |
| `FileUpload.SpliceOne` | src/components/ui-custom/FileUpload.tsx:59-61 | `splice(i, 1)` on a copy removes exactly one entry when the list is non-empty and `i < n`. For `i >= n` it leaves the list unchanged. |
| `FileUpload.RemoveAt` | src/components/ui-custom/FileUpload.tsx:59-64 | removing a valid index `i` gives length `n-1`. The prefix before `i` is kept, later entries move down by one, and the removed entry's occurrence is the only one lost (multiset). |
| `FileUpload.FileSelector.constructor` | src/components/ui-custom/FileUpload.tsx:12-18 | the widget keeps the given `maxFiles` and `acceptedFileTypes`, which default to 20 and `["image/jpeg", "image/png"]`. It starts with no files, no drag in progress and no report to the parent. |
| `FileUpload.FileSelector.SetFiles` | src/components/ui-custom/FileUpload.tsx:29-30 | the new list becomes the state, and the same list is reported to the parent |
| `FileUpload.FileSelector.HandleFileChange` | src/components/ui-custom/FileUpload.tsx:21-32 | an input change with a file list sets the list to `AddFiles` of the old list and reports it. An event without a file list changes nothing. The widget invariant is kept: within capacity, only accepted files, and the last report equals the list. |
| `FileUpload.FileSelector.HandleDragOver` | src/components/ui-custom/FileUpload.tsx:34-37 | drag-over sets `isDragActive` and changes neither the files nor the reports. The widget invariant is kept. |
| `FileUpload.FileSelector.HandleDragLeave` | src/components/ui-custom/FileUpload.tsx:39-41 | drag-leave clears `isDragActive` and changes neither the files nor the reports. The widget invariant is kept. |
| `FileUpload.FileSelector.HandleDrop` | src/components/ui-custom/FileUpload.tsx:43-57 | a drop clears `isDragActive`. It then gives the same list as an input change with the same files (`AddFiles`) and reports it. The widget invariant is kept. |
| `FileUpload.FileSelector.RemoveFile` | src/components/ui-custom/FileUpload.tsx:59-64 | the list becomes `SpliceOne` of the old list, and that list is reported even when nothing was removed. The widget invariant is kept. |
| `FileUpload.FileSelector.ClearAll` | src/components/ui-custom/FileUpload.tsx:123 | "Clear all" empties the list and reports the empty list |
| `GenerationForm.IsWhitespace` | src/components/ui-custom/GenerationForm.tsx:24 | the characters `trim()` strips never include a digit or a Latin letter |
| `GenerationForm.Trim` | src/components/ui-custom/GenerationForm.tsx:24 | `trim()` returns the piece of the string between whitespace-only borders. The piece neither starts nor ends with whitespace, and it is empty exactly when the string is blank. |
| `GenerationForm.TrimIdempotent` | src/components/ui-custom/GenerationForm.tsx:25 | trimming the trimmed prompt again changes nothing |
| `GenerationForm.Form.constructor` | src/components/ui-custom/GenerationForm.tsx:20 | the prompt starts empty |
| `GenerationForm.Form.HandleChange` | src/components/ui-custom/GenerationForm.tsx:35 | editing the text area replaces the prompt with the new value |
| `GenerationForm.Form.SubmitDisabled` | src/components/ui-custom/GenerationForm.tsx:51 | the submit button is disabled exactly when loading or when the prompt is all whitespace |
| `GenerationForm.Form.HandleSubmit` | src/components/ui-custom/GenerationForm.tsx:22-27 | `onSubmit` is called exactly when not loading and the prompt is not blank, that is, exactly when the button is enabled. It is called with the trimmed prompt, which is non-empty, has no whitespace at either end and trims to itself. The prompt is not changed. |
| `Upload.Split` | src/pages/Upload.tsx:19 | `split(' ')` always yields at least one piece |
| `Upload.Join` | src/pages/Upload.tsx:19 | `join` of a non-empty list has the parts' total length plus one separator between each two. It starts with the first part, and the separator follows it when there are two or more parts. |
| `Upload.JoinSplitReplaces` | src/pages/Upload.tsx:19 | splitting at one character and joining with another replaces every occurrence of the first with the second |
| `Upload.MockGenerateImage` | src/pages/Upload.tsx:13-22 | the result echoes the prompt unchanged. Its URL is the fixed prefix followed by the prompt with every space turned into a comma, so the URL has length `prefix + |prompt|` and is non-empty. |
| `Upload.RegeneratePrompt` | src/pages/Upload.tsx:187 | Regenerate passes the last result's prompt, or `''` when there is no result |
| `Upload.UploadPage.constructor` | src/pages/Upload.tsx:24-30 | the page starts with no files and no flags set. There is no image, `remainingGenerations` is 5, and nothing is pending. |
| `Upload.UploadPage.HandleFilesSelected` | src/pages/Upload.tsx:32-34 | the widget's list replaces `selectedFiles` wholesale and nothing else changes. `remainingGenerations` is a constant. |
| `Upload.UploadPage.HandleProcessFiles` | src/pages/Upload.tsx:36-41 | with no files selected nothing changes. Otherwise `isProcessing` becomes true and one more timer is pending. |
| `Upload.UploadPage.ProcessingTimerFired` | src/pages/Upload.tsx:42-45 | a timer firing sets `isProcessing` back to false and changes nothing else |
| `Upload.UploadPage.HandleGenerateImage` | src/pages/Upload.tsx:48-52 | starting a generation sets `isGenerating` and adds the prompt to the pending calls. The prompt is not checked. |
| `Upload.UploadPage.GenerationResolved` | src/pages/Upload.tsx:52-58 | on success the image becomes the mock result for that call's prompt and the preview opens. `isGenerating` becomes false and the call is no longer pending. |
| `Upload.UploadPage.GenerationRejected` | src/pages/Upload.tsx:55-59 | on failure only `isGenerating` is cleared and the call dropped. The image and preview are unchanged. |
| `Upload.UploadPage.SubmitGenerationForm` | src/pages/Upload.tsx:103-107 | with the form wired to the page (`isLoading = isGenerating`), nothing starts while generating or for a blank prompt. Otherwise the trimmed prompt starts a call, and the files, the processing flag and its timers, the image and the preview are unchanged. |
| `Upload.UploadPage.HandleRegenerate` | src/pages/Upload.tsx:187 | Regenerate starts a call with the last prompt even while generating, adding a second pending call. The image, the preview, the files, the processing flag and the pending timers are unchanged. |
| `Upload.UploadPage.SetShowPreviewModal` | src/pages/Upload.tsx:157 | the dialog's open-change and Close set `showPreviewModal` and nothing else |
| `Upload.UploadPage.HandleDownloadGenerated` | src/pages/Upload.tsx:62-71 | the download does nothing without an image. Otherwise it downloads the image's URL, which starts with the generator's prefix. |
| `Upload.SubmitAndResolve` | src/pages/Upload.tsx:48-58 | submitting `"  a red cat "` and letting the call resolve shows a result with prompt `"a red cat"` and a non-empty URL, with the preview open |
| `Upload.RegenerateWhileGenerating` | src/pages/Upload.tsx:187 | two Regenerate clicks leave two generations pending while `isGenerating` holds, so there is no page-level at-most-one-in-flight invariant |
| `Gallery.ToLowerChar` | src/pages/Gallery.tsx:69 | `toLowerCase` maps a capital A to Z to the small letter 32 code points later and keeps every other character, so no capital is left |
| `Gallery.ToLower` | src/pages/Gallery.tsx:69 | the lower-cased string has the same length, lower-cases each character in place, and holds no capital A to Z |
| `Gallery.Includes` | src/pages/Gallery.tsx:69 | `includes('')` is true for every string; `IncludesIff` gives the rest |
| `Gallery.IncludesIff` | src/pages/Gallery.tsx:69 | `includes` holds exactly when the query occurs at some position of the prompt |
| `Gallery.MatchesQuery` | src/pages/Gallery.tsx:68-70 | an image matches exactly when the lower-cased query occurs at some position of the lower-cased prompt |
| `Gallery.Search` | src/pages/Gallery.tsx:68-70 | the search keeps exactly the images that match, and never more images than it was given |
| `Gallery.SearchPicksMatches` | src/pages/Gallery.tsx:68-70 | every image the search shows matches, every matching image is shown, and the order of ids is kept |
| `Gallery.MockIdsIncrease` | src/pages/Gallery.tsx:16-65 | the mock images are listed in increasing id order |
| `Gallery.FilteredImages` | src/pages/Gallery.tsx:68-70 | the shown images are mock images whose lower-cased prompt contains the lower-cased query. Every omitted mock image does not match, and the original order is kept. |
| `Gallery.View` | src/pages/Gallery.tsx:121-133 | the "No images found" branch is taken exactly when no mock image matches, and the grid is never empty |
| `Gallery.EmptyQueryShowsAll` | src/pages/Gallery.tsx:68-70 | an empty query shows all 8 mock images, in order |
| `Gallery.FilterOptionIgnored` | src/pages/Gallery.tsx:13 | the result does not depend on `filterOption` |
| `Gallery.CaseInsensitive` | src/pages/Gallery.tsx:69 | queries that differ only in letter case show the same images |
| `Animations.StaggeredAnimation` | src/lib/animations.ts:50-58 | the result has one item per input item. Item `i` has `animationDelay == baseDelay + i * staggerAmount`. It has the input item's fields plus `animationDelay`, and every other field is copied unchanged. |
| `Animations.DefaultDelays` | src/lib/animations.ts:52-53 | with the defaults the first delay is 100 and consecutive delays differ by 50 |
| `Animations.DelaysNondecreasing` | src/lib/animations.ts:57 | with a non-negative stagger, delays never decrease along the list |

## Left out

- Browser effects are not modelled:
  - object-URL previews, and the fact that they are never revoked;
  - the anchor-click download and its `Date.now()` file name (only the URL handed to it is modelled);
  - the file input's `accept` hint and `click()`;
  - `preventDefault`;
  - `console.error`;
  - navigation.
- Real time and concurrency are not modelled. Each `setTimeout` and `await` becomes a method that starts it and an event method that completes it, and any pending call or timer may complete next. The 2000 ms delays are not modelled.
- `Upload.UploadPage.GenerationRejected`: the mock generator never rejects, so this path is unreachable with the code as it is. It is kept because the `catch`/`finally` in the handler defines it.
- `GenerationForm.Trim`: the whitespace set is ECMAScript's WhiteSpace and LineTerminator code points as one fixed list. Unicode-version differences in the space-separator category are not modelled.
- `Gallery.CaseInsensitive`: `toLowerCase` is modelled for the ASCII letters A to Z only, and here the model and the code part. JavaScript also lowers non-ASCII characters, some of them to ASCII letters: U+212A KELVIN SIGN lowers to `k`, so the query `"K"` written with that sign shows images 1, 2 and 7 (their prompts contain `k`) in the code and no image in the model. `Gallery.ToLowerChar`, `Gallery.ToLower`, `Gallery.MatchesQuery` and `Gallery.FilteredImages` agree with the code only for queries without such characters.
- `Animations.StaggeredAnimation`: numbers are integers, not IEEE doubles. Items are plain objects (string-keyed maps of values). Spreading arrays, strings, prototypes and getters is not modelled.
- `FileUpload.FileSelector`: `maxFiles` and `acceptedFileTypes` are fixed when the widget is created. A parent that re-renders with different props is not modelled, and neither is a non-integer `maxFiles`.
- `FileUpload.File`: a browser `File` is reduced to its name and media type. Its contents are not modelled.
- The header counter `remainingGenerations`/`isProUser` in the form is display only and is not modelled beyond the constant 5 on the page.
- The rest of the site is left out because it only renders or toggles display flags: the home, pricing and navigation pages, the footer, the image and pricing cards, dark mode with `localStorage`, scroll listeners, and the `useFadeIn`/`useIntersectionObserver` hooks.
