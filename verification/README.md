# ImageCraft AI core, modelled in Dafny

ImageCraft AI is a Next.js application. The user uploads an image, or composes one from an avatar and an outfit, writes a prompt, and sends both to an image-editing service. The browser starts a generation through the application's own server route and then polls the route until the image is ready.

This project models the logic under the React markup as pure Dafny functions over immutable datatypes, and proves what that logic promises:

- **Composer geometry** (`Composer`, `composer.dfy`). On the 1024-pixel canvas, a layer's x is centre-anchored and its y is top-anchored. It also covers:
  - the "contain" fit of the outfit into its box;
  - the centred square crop of the avatar and its clip circle;
  - the drag clamp and the one-layer position update;
  - the three drawing calls of a composition.
- **Composer storage** (`ComposerStorage`, `composer_storage.dfy`). Saved positions fall back to their defaults field by field. A saved image-URL entry expires 24 hours after it was last written. Storage is covered on mount, reset and clear.
- **Position script** (`PositionScript`, `position_script.dfy`). The stand-alone position script keeps its own copies of the geometry, the clamp and the drag update. Each copy is proved equal to the composer's, and the script's worked values are proved exactly.
- **Generation client** (`Polling`, `polling.dfy`):
  - the API-key guards;
  - the start and status requests;
  - the polling loop, which ends on Ready, Error or Failed, on a failed request, or after 120 polls.

  The loop is modelled twice: as a recursive function over the sequence of backend answers, and as the while loop it is written as. The two are proved equal.
- **Prompt classifier** (`PromptAnalysis`, `prompt_analysis.dfy`). The rule-based judgement of whether a prompt is complete, and the suggestion offered when it is not.
- **Server route** (`GenerateRoute`, `route.dfy`). POST and GET validate their inputs and choose the status code. The upstream answer is an input. A route reply can be fed to the client model, so the two can be proved together.
- **UI decision functions**:
  - the status label and panel choice of the generated-image panel (`GeneratedImage`);
  - the upload checks, the base64 payload, the drag flag and image removal (`ImageInput`);
  - the prompt send transition (`CraftApp`).

Shared helpers are in two modules:

- `Wrappers`: `Option` and `Result`.
- `Text`: JavaScript's `trim` over the full JavaScript white-space set, ASCII `toLowerCase`/`toUpperCase`, `includes`, `startsWith`, decimal rendering of a status code with its read-back, and `split(',')[1]`.

Behaviour of the code worth noting:

- The POST route parses the JSON body before it checks the API key. A malformed body therefore gets 500 with the parser's message, even without a key. A JSON `null` body (the destructuring throws) and a non-string `prompt` (the `substring` call in the log line throws) also get 500 before the key check; the model folds them into the malformed case.
- `drawContain` has no guard against an image of zero width or height. The model makes positive dimensions a precondition and invents no error.
- Restoring the URLs on mount changes them, and the effect that watches them writes the entry again stamped with the current time. Every visit that restores the URLs therefore restarts the 24 hours: the window slides, and URLs revisited at least once a day never expire.
- A saved URL entry without a timestamp gives a NaN age. NaN is never "more than 24 hours", so such an entry is restored, never expired.
- A stored position entry that is not valid JSON throws inside the mount effect before the URL entry is read. The URLs are then not restored.

## Model

| member | source | states |
|---|---|---|
| Composer.LayerRect | imagecraft-ai/src/components/AvatarOutfitComposer.tsx:244-252 | The layer rectangle's horizontal centre is canvas·x and its top is canvas·y. Width and height are canvas·size. |
| Composer.LayerRectShift | imagecraft-ai/src/components/AvatarOutfitComposer.tsx:244-252 | Moving a layer's position by (dx, dy) moves its rectangle by (canvas·dx, canvas·dy) and keeps its extent. |
| Composer.DrawContain | imagecraft-ai/src/components/AvatarOutfitComposer.tsx:201-209 | For a positive-sized image, the drawn rectangle keeps the image's aspect ratio and is centred on both axes. It fills the box on at least one axis and lies inside any non-negative box. |
| Composer.ContainScaleFits | imagecraft-ai/src/components/AvatarOutfitComposer.tsx:202-204 | The smaller of the two axis factors keeps both axes within the box and makes one of them fill it. |
| Composer.ContainIsLargest | imagecraft-ai/src/components/AvatarOutfitComposer.tsx:202-204 | No uniform scale that fits the box draws the image larger than the contain fit. |
| Composer.SquareCrop | imagecraft-ai/src/components/AvatarOutfitComposer.tsx:264-266 | The crop edge is the image's width or height. The offsets are non-negative and the crop stays inside the image. One offset is 0, and the crop is centred on both axes. |
| Composer.ClipCircle | imagecraft-ai/src/components/AvatarOutfitComposer.tsx:276 | The clip circle spans the head rectangle's width exactly and is centred vertically on the rectangle. |
| Composer.ClipCircleInscribed | imagecraft-ai/src/components/AvatarOutfitComposer.tsx:244-279 | For a square head rectangle, the circle touches top and bottom, and every point in the disc lies inside the rectangle. |
| Composer.AvatarCircleOnPosition | imagecraft-ai/src/components/AvatarOutfitComposer.tsx:246-276 | The avatar circle's centre x is canvas times the avatar position's x. |
| Composer.DefaultAvatarIsSquare | imagecraft-ai/src/components/AvatarOutfitComposer.tsx:47-52 | The default avatar rectangle is 286.72 × 286.72 pixels, so its clip circle (radius 143.36) is inscribed. |
| Composer.Compose | imagecraft-ai/src/components/AvatarOutfitComposer.tsx:219-280 | Composition fails exactly when a URL is missing, or when both are set and an image fails to decode. Otherwise it issues, in order: the white background; the outfit drawn at the contain-fit rectangle of its layer box; and the avatar drawn from the centred square crop of its image, clipped to the circle on its layer rectangle. |
| Composer.ComposeStaysInside | imagecraft-ai/src/components/AvatarOutfitComposer.tsx:261-279 | In a successful composition, the outfit is drawn inside its box and the avatar crop stays inside the avatar image. |
| Composer.Clamp | imagecraft-ai/src/components/AvatarOutfitComposer.tsx:371-372 | `Math.max(lo, Math.min(hi, v))` lies in [lo, hi]. It is v inside the range, lo below it and hi above it. |
| Composer.ClampPosition | imagecraft-ai/src/components/AvatarOutfitComposer.tsx:365-372 | Clamped positions have x in [0.1, 0.9] and y in [0.05, 0.9]. In-range coordinates are kept. |
| Composer.ClampIdempotent | imagecraft-ai/src/components/AvatarOutfitComposer.tsx:371-372 | Clamping a clamped position changes nothing. |
| Composer.ClampMonotone | imagecraft-ai/src/components/AvatarOutfitComposer.tsx:371-372 | Clamping preserves the order of coordinates. |
| Composer.UpdatePositionState | imagecraft-ai/src/components/AvatarOutfitComposer.tsx:297-305 | Only the named layer's position changes. The other layer's position and both sizes are unchanged. |
| Composer.UpdatePositionStateLaws | imagecraft-ai/src/components/AvatarOutfitComposer.tsx:297-305 | Writing a layer's current position is a no-op, and the last of two writes to a layer wins. |
| Composer.HandleMouseMove | imagecraft-ai/src/components/AvatarOutfitComposer.tsx:349-379 | With no drag in progress, or no preview, nothing changes. Otherwise the dragged layer gets the clamped pointer fraction within the preview, and everything else is kept. |
| Composer.DraggedPositionInRange | imagecraft-ai/src/components/AvatarOutfitComposer.tsx:365-378 | Every dragged position lies in the handle range. |
| ComposerStorage.RestorePositions | imagecraft-ai/src/components/AvatarOutfitComposer.tsx:122-127 | Each missing saved field falls back to its own default, independently of the others. |
| ComposerStorage.PositionsRoundTrip | imagecraft-ai/src/components/AvatarOutfitComposer.tsx:119-149 | Restoring a saved position state gives that state back. |
| ComposerStorage.EmptyEntryRestoresDefaults | imagecraft-ai/src/components/AvatarOutfitComposer.tsx:122-127 | An entry with no fields restores exactly the defaults. |
| ComposerStorage.LoadImageUrls | imagecraft-ai/src/components/AvatarOutfitComposer.tsx:84-110 | URLs are restored exactly when the entry parses and is not expired, and removed exactly when it parses and is expired. Otherwise nothing happens. |
| ComposerStorage.SaveImageUrls | imagecraft-ai/src/components/AvatarOutfitComposer.tsx:68-81 | An entry stamped with the current time is written exactly when at least one URL is set; the guard is in the effect at lines 185-190. |
| ComposerStorage.UrlCacheRoundTrip | imagecraft-ai/src/components/AvatarOutfitComposer.tsx:97-105 | Saved URLs come back unchanged when at most 86 400 000 ms have passed (exactly 24 h included). Later, the entry is removed. |
| ComposerStorage.Mount | imagecraft-ai/src/components/AvatarOutfitComposer.tsx:113-143 | A parsed position entry is restored field by field; otherwise the defaults are used. A corrupt position entry stops the URL entry from being read. |
| ComposerStorage.AfterUrlLoad | imagecraft-ai/src/components/AvatarOutfitComposer.tsx:102-105 | Only an expired URL entry is removed. The position entry is kept. |
| ComposerStorage.RestoreSlidesWindow | imagecraft-ai/src/components/AvatarOutfitComposer.tsx:68-190 | A mount that restores the URLs, followed by the write-back stamped with the current time, restores them again at any later mount within 24 hours, however old the original entry is. |
| ComposerStorage.SaveAfterUpdate | imagecraft-ai/src/components/AvatarOutfitComposer.tsx:290-322 | A drag update changes only that layer's position and writes the whole new state back. It starts a new composition exactly when both image URLs are set; the preview is replaced only when that composition finishes. |
| ComposerStorage.ResetPositions | imagecraft-ai/src/components/AvatarOutfitComposer.tsx:471-486 | The defaults are restored and saved. The images, the adjusting mode and the URL entry stay. The new positions start a new composition (the position effect) exactly when both image URLs are set. |
| ComposerStorage.ClearAll | imagecraft-ai/src/components/AvatarOutfitComposer.tsx:439-469 | Images, preview and adjusting mode are cleared and the URL entry is removed. The saved positions read back as the defaults. The parent's remove callback fires, and no composition starts. |
| ComposerStorage.RecomposeNeedsBothImages | imagecraft-ai/src/components/AvatarOutfitComposer.tsx:403-418 | After a clear, neither a drag update nor a reset starts a composition. With both images selected, each of them does. |
| ComposerStorage.ResetSurvivesRemount | imagecraft-ai/src/components/AvatarOutfitComposer.tsx:439-486 | After a reset, a remount starts from the defaults. After a clear, it also restores no URLs. |
| ComposerStorage.DefaultValues | imagecraft-ai/src/components/AvatarOutfitComposer.tsx:47-52 | The defaults are avatar (0.5, 0.06) with size 0.28 and outfit (0.5, 0.4) with size 0.72. |
| PositionScript.CalculatePositionsMatchesComposer | imagecraft-ai/test-position-adjustment.js:14-31 | The script's rectangles equal the composer's layer rectangles for the same state. |
| PositionScript.DefaultLayout | imagecraft-ai/test-position-adjustment.js:5-31 | The default layout is avatar (368.64, 61.44, 286.72, 286.72) and outfit (143.36, 409.6, 737.28, 737.28). |
| PositionScript.MoveShiftsRectangles | imagecraft-ai/test-position-adjustment.js:86-115 | Changing only positions shifts each rectangle by the canvas edge times the move and keeps every width and height. |
| PositionScript.WorkedMove | imagecraft-ai/test-position-adjustment.js:88-111 | The script's move gives avatar deltas (-204.8, 143.36) and outfit deltas (204.8, 204.8). |
| PositionScript.ClampMatchesComposer | imagecraft-ai/test-position-adjustment.js:34-38 | The script's clamp equals the composer's clamp. |
| PositionScript.ClampVectors | imagecraft-ai/test-position-adjustment.js:58-68 | The clamp maps (0,0) to (0.1,0.05), (1,1) to (0.9,0.9), (0.05,0.02) to (0.1,0.05), and keeps (0.5,0.5). |
| PositionScript.UpdatePosition | imagecraft-ai/test-position-adjustment.js:41-45 | The result lies in the handle range. It is the pointer fraction of the canvas whenever that fraction is in range. |
| PositionScript.UpdateMatchesComposer | imagecraft-ai/test-position-adjustment.js:41-45 | The script's drag update puts the dragged layer exactly where the composer's pointer-move handler does, for a preview at the origin with the canvas's extent. |
| PositionScript.UpdateIgnoresCurrent | imagecraft-ai/test-position-adjustment.js:41-45 | The current position has no effect on the result. |
| PositionScript.DragVectors | imagecraft-ai/test-position-adjustment.js:72-84 | On 800 × 600: (400,300) maps to (0.5,0.5), (100,100) to (0.125,1/6) and (700,500) to (0.875,5/6). |
| Polling.NewClient | imagecraft-ai/src/lib/imageGenerationApi.ts:38-40 | A new client holds the stored key, or the empty key when none is stored. |
| Polling.UpdateApiKey | imagecraft-ai/src/lib/imageGenerationApi.ts:43-46 | The client holds the new key and the same key is written to storage. |
| Polling.UpdateThenIsSet | imagecraft-ai/src/lib/imageGenerationApi.ts:43-51 | After an update, a key is set exactly when the new key is not empty. |
| Polling.Outcome | imagecraft-ai/src/lib/imageGenerationApi.ts:76-87 | A 2xx answer yields its body. A non-2xx answer fails with the body's `error` field when it is non-empty, and otherwise with a message that starts with the call's prefix. A network error fails with its own message. |
| Polling.FallbackMessageParts | imagecraft-ai/src/lib/imageGenerationApi.ts:79 | Without an `error` field, the message is the prefix, then the status code (which reads back as the status), then a space and the status text. |
| Polling.GenerateImage | imagecraft-ai/src/lib/imageGenerationApi.ts:54-89 | Without a key, it fails before sending anything. With a key, it sends the prompt and image with the key, and succeeds exactly on a 2xx answer. |
| Polling.PollResult | imagecraft-ai/src/lib/imageGenerationApi.ts:92-122 | Without a key, it fails before sending anything. With a key, it sends one status request, and succeeds exactly on a 2xx answer. |
| Polling.Wait | imagecraft-ai/src/lib/imageGenerationApi.ts:125-151 | From attempt a, at most 120 − a polls are made and at most one status is reported per poll. |
| Polling.WaitForCompletion | imagecraft-ai/src/lib/imageGenerationApi.ts:125-151 | At most 120 polls are made. Without a key, it fails with the key message after no poll and no progress report. |
| Polling.WaitStep | imagecraft-ai/src/lib/imageGenerationApi.ts:129-143 | A non-terminal 2xx answer is reported, counts as one poll, and the wait continues. |
| Polling.WaitStop | imagecraft-ai/src/lib/imageGenerationApi.ts:129-147 | An answer that does not keep the wait going ends it after one poll with that answer's outcome. Its status is reported only when the request succeeded. |
| Polling.WaitStopsAt | imagecraft-ai/src/lib/imageGenerationApi.ts:129-147 | When answer k is the first that does not keep the wait going, the wait ends with its outcome after exactly k + 1 polls. The statuses received are reported in order. |
| Polling.WaitRunsOut | imagecraft-ai/src/lib/imageGenerationApi.ts:129-150 | When every answer keeps the wait going, it times out after the last poll, reporting every status. |
| Polling.WaitCharacterised | imagecraft-ai/src/lib/imageGenerationApi.ts:125-151 | Ready resolves to the sample (or ''). Error or Failed rejects with the generation-failed message. A failed request rejects with its error, with no retry. 120 non-terminal answers time out with '图像生成超时'. |
| Polling.WaitLoop | imagecraft-ai/src/lib/imageGenerationApi.ts:125-151 | The while loop as written computes exactly the recursive characterisation. |
| Polling.ReadyAfterFourProcessing | imagecraft-ai/src/lib/imageGenerationApi.ts:133-136 | Four Processing answers then a Ready answer resolve to the sample after five polls. All five statuses, Ready included, are reported. |
| Polling.FailedCarriesMessage | imagecraft-ai/src/lib/imageGenerationApi.ts:137-138 | A Failed answer with error "bad input" rejects with '图像生成失败: bad input' after one poll. |
| PromptAnalysis.AnalyzePrompt | imagecraft-ai/src/lib/llmService.ts:11-89 | A blank input is incomplete with the blank reason and no suggestion. The input is complete iff (edit ∧ (visual ∨ len > 10)) ∨ (action ∧ len > 10) ∨ (len > 50 ∧ (visual ∨ edit)). A complete input is suggested as typed. An incomplete non-blank input gets a suggestion starting with `current + ", "`. |
| PromptAnalysis.AnalyzePromptWithLLM | imagecraft-ai/src/lib/llmService.ts:92-96 | It returns the same judgement as the rule-based analysis. |
| PromptAnalysis.ReasonIsFirstRule | imagecraft-ai/src/lib/llmService.ts:50-88 | The reason is that of the first rule that fires, in the order edit, action, length. An input that fires none gets the incomplete reason and the suggestion. |
| PromptAnalysis.SuggestionForm | imagecraft-ai/src/lib/llmService.ts:75-82 | The suggestion inserts '请' exactly when the input has no edit keyword and fewer than 20 characters. Otherwise the input is appended as typed. |
| PromptAnalysis.LengthRuleNeedsVisual | imagecraft-ai/src/lib/llmService.ts:50-72 | Rule 3 can fire first only for a visual description with no edit or action keyword. Its edit alternative never decides. |
| PromptAnalysis.IncompleteEditIsShort | imagecraft-ai/src/lib/llmService.ts:50-72 | When the input has an edit keyword but no rule fires, it has at most 10 characters and no visual keyword. |
| PromptAnalysis.CaseInsensitive | imagecraft-ai/src/lib/llmService.ts:12-20 | Upper-casing the input leaves its normalised (trimmed, lower-cased) text unchanged. |
| PromptAnalysis.SameNormalFormSameJudgement | imagecraft-ai/src/lib/llmService.ts:12-72 | Two inputs with the same normalised text get the same completeness judgement and reason. |
| PromptAnalysis.UpperCaseSameJudgement | imagecraft-ai/src/lib/llmService.ts:12-72 | Upper-casing the input changes neither the judgement nor the reason. |
| PromptAnalysis.BlankHasNoFeatures | imagecraft-ai/src/lib/llmService.ts:12-20 | An input of white space only trims and normalises to the empty text and has no edit, visual or action keyword. |
| PromptAnalysis.SuggestionStartsWithCurrent | imagecraft-ai/src/lib/llmService.ts:75-82 | Every suggestion starts with the current final prompt followed by ", ". |
| PromptAnalysis.CompleteByEditRule | imagecraft-ai/src/lib/llmService.ts:50-56 | An input with an edit keyword and a visual keyword is complete by the first rule and kept as typed, whatever its length. |
| PromptAnalysis.ShortEditWithColorIsComplete | imagecraft-ai/src/lib/llmService.ts:50-56 | "Add color" is complete by the edit rule. |
| GenerateRoute.UpstreamOutcome | imagecraft-ai/src/app/api/generate-image/route.ts:41-49 | A 2xx upstream answer yields its payload unchanged. A non-2xx answer yields an error starting with the helper's prefix. A thrown `Error` keeps its message. Any other thrown value gives '未知错误'. |
| GenerateRoute.UpstreamErrorParts | imagecraft-ai/src/app/api/generate-image/route.ts:41-44 | The non-2xx message starts with the prefix. The status code follows and reads back as the status, and the message ends with the upstream body text. |
| GenerateRoute.Answered | imagecraft-ai/src/app/api/generate-image/route.ts:110-120 | A sent request answers 200 with the payload on upstream success and 500 with the error otherwise. |
| GenerateRoute.Post | imagecraft-ai/src/app/api/generate-image/route.ts:79-121 | A malformed body gets 500 with its message. A missing key gets 400 '缺少API密钥'. A missing prompt or image gets 400 with no upstream call. Otherwise it sends {prompt, input_image, safety_tolerance 6} to the start endpoint with the key, and answers exactly as the upstream outcome dictates: 200 with the handle, or 500 with the 'BFL API请求失败: ' message, the thrown message or '未知错误'. |
| GenerateRoute.Get | imagecraft-ai/src/app/api/generate-image/route.ts:124-154 | It gets 400 unless the polling URL, request id and key are all present. Otherwise it fetches the polling URL verbatim with the key, and answers exactly as the upstream outcome dictates: 200 with the payload unchanged, or 500 with the '轮询请求失败: ' message, the thrown message or '未知错误'. |
| GenerateRoute.KeyCheckedFirst | imagecraft-ai/src/app/api/generate-image/route.ts:92-108 | A parsed request without a key gets the same 400 whatever its parameters and whatever the upstream answer. |
| GenerateRoute.RequestIdOnlyChecked | imagecraft-ai/src/app/api/generate-image/route.ts:128-143 | Two polls that differ only in a present request id get the same reply. |
| GenerateRoute.AsClientAnswer | imagecraft-ai/src/lib/imageGenerationApi.ts:109-117 | The client sees a success exactly when the route replied with a payload. |
| GenerateRoute.PollThroughRoute | imagecraft-ai/src/app/api/generate-image/route.ts:124-154 | Through the route, a status poll yields the upstream payload unchanged. An upstream error status reaches the client as the route's message with code and body text. A thrown `Error` keeps its message, and any other thrown value arrives as '未知错误'. |
| GenerateRoute.StartThroughRoute | imagecraft-ai/src/app/api/generate-image/route.ts:79-121 | Through the route, the client's prompt and image reach the start endpoint with its key. The handle comes back unchanged, or the upstream error message does. |
| GeneratedImage.StatusColor | imagecraft-ai/src/components/GeneratedImage.tsx:22-34 | Only Error and Failed are red. Any unknown status, '' included, is gray. |
| GeneratedImage.StatusText | imagecraft-ai/src/components/GeneratedImage.tsx:36-48 | Only Error and Failed get the failure label. Any unknown status, '' included, gets the waiting label. |
| GeneratedImage.StatusTable | imagecraft-ai/src/components/GeneratedImage.tsx:22-48 | Processing is blue with '正在生成图像...'. Ready is green with '图像生成完成！'. Error and Failed share colour and label. '' is gray with '等待生成...'. |
| GeneratedImage.ColorMatchesText | imagecraft-ai/src/components/GeneratedImage.tsx:22-48 | Two statuses share a label exactly when they share a colour. |
| GeneratedImage.MainPanel | imagecraft-ai/src/components/GeneratedImage.tsx:93-141 | Each panel is chosen exactly under its condition, in priority order: the image (URL, no load error), the load-failure panel (URL, load error), the spinner with the status (no URL, generating), else the placeholder. |
| GeneratedImage.UrlTakesPriority | imagecraft-ai/src/components/GeneratedImage.tsx:93-123 | With a URL set, the generating flag and status do not affect the panel. |
| GeneratedImage.OnImageEvent | imagecraft-ai/src/components/GeneratedImage.tsx:100-116 | The load-error flag is set by an image error and cleared by a load or by the retry button. |
| GeneratedImage.RetryShowsImage | imagecraft-ai/src/components/GeneratedImage.tsx:100-120 | After a load error the failure panel shows, and after retry the image shows again. |
| GeneratedImage.ToggleSettings | imagecraft-ai/src/components/GeneratedImage.tsx:59 | The settings button flips the settings flag and keeps the load-error flag. |
| GeneratedImage.ToggleTwice | imagecraft-ai/src/components/GeneratedImage.tsx:59 | Toggling twice restores the state. |
| ImageInput.Initial | imagecraft-ai/src/components/ImageInput.tsx:14-16 | The box starts with the highlight off, with the given URL unless it is empty, and with the given name or ''. |
| ImageInput.HandleFile | imagecraft-ai/src/components/ImageInput.tsx:39-60 | A non-image type is rejected with '请上传图片文件', checked before size. An image over 10 485 760 bytes is rejected with '图片文件大小不能超过10MB'. Rejection changes nothing. An accepted file sets the image and name, and the callback gets `split(',')[1]` of the data URL. |
| ImageInput.UploadIffAccepted | imagecraft-ai/src/components/ImageInput.tsx:39-60 | The callback fires exactly for accepted files. A rejected file changes nothing and gets exactly one alert. |
| ImageInput.SizeBoundary | imagecraft-ai/src/components/ImageInput.tsx:47-50 | Exactly 10 485 760 bytes is accepted; one byte more is rejected. |
| ImageInput.PayloadRoundTrip | imagecraft-ai/src/components/ImageInput.tsx:57 | For a base64 data URL (section 3 of RFC 2397) with a comma-free media type, `split(',')[1]` is exactly the data. |
| ImageInput.UploadPassesData | imagecraft-ai/src/components/ImageInput.tsx:52-58 | An accepted file read as a base64 data URL hands its data to the callback unchanged. |
| ImageInput.HandleDrag | imagecraft-ai/src/components/ImageInput.tsx:19-27 | dragenter and dragover set the highlight and dragleave clears it. Any other event type changes nothing. |
| ImageInput.DragLaws | imagecraft-ai/src/components/ImageInput.tsx:19-27 | Repeating a drag event changes nothing more. Entering then leaving turns the highlight off and leaves the image alone, and moving over the box after leaving turns it back on. |
| ImageInput.HandleDrop | imagecraft-ai/src/components/ImageInput.tsx:29-37 | A drop always clears the highlight. It handles the first dropped file, and does nothing more when there is none. |
| ImageInput.HandleFileInputChange | imagecraft-ai/src/components/ImageInput.tsx:66-70 | Choosing files handles the first one, and does nothing when there is none. |
| ImageInput.DropIsChoiceWithoutHighlight | imagecraft-ai/src/components/ImageInput.tsx:29-37 | A drop is a file choice after clearing the highlight. |
| ImageInput.HandleRemoveImage | imagecraft-ai/src/components/ImageInput.tsx:72-79 | The image and the name are cleared and the remove callback fires. |
| ImageInput.RemoveUndoesUpload | imagecraft-ai/src/components/ImageInput.tsx:72-79 | Removing an upload restores the empty box and its drop zone. |
| Text.SecondField | imagecraft-ai/src/components/ImageInput.tsx:57 | `split(',')[1]` is undefined exactly when there is no comma. |
| CraftApp.SendPrompt | imagecraft-ai/src/components/ImageCraftApp.tsx:13-18 | A whitespace-only prompt changes nothing. Any other prompt becomes the final prompt untrimmed, and the input is cleared. |
| CraftApp.SendTwiceIsSendOnce | imagecraft-ai/src/components/ImageCraftApp.tsx:13-18 | A second send right after a send changes nothing. |
| CraftApp.SendChangesIffNonBlank | imagecraft-ai/src/components/ImageCraftApp.tsx:14 | A prompt, the empty one included, changes the state exactly when it has a character that is not white space. |
| CraftApp.SendExamples | imagecraft-ai/src/components/ImageCraftApp.tsx:10-18 | The page starts with the cityscape final prompt. A blank send keeps it, and " a cat " replaces it untrimmed. |

## Left out

- Pixels and canvas I/O are not modelled. This covers image decoding, `FileReader`, `drawImage`, fill and clip rendering, shadows, PNG encoding of the preview, and `dataUrlToFile`. The model covers the rectangles, crop and circle handed to the canvas.
- Floating point is not modelled: geometry uses exact reals, so IEEE rounding at the clamp bounds and in the 1024-canvas numbers is out.
- Composer.DrawContain: requires a positive-sized image, because the source divides by the image dimensions without a guard.
- Composer.HandleMouseMove: requires a preview of positive extent when dragging. With a zero-sized preview the source divides by zero. The clamp turns an infinite fraction into a bound (0.1 or 0.9, 0.05 or 0.9), but a pointer exactly on the preview's edge gives 0/0 = NaN, which the clamp passes through. Exact reals have neither value.
- Overlapping compositions are not modelled. Asynchronous `compose` calls racing to set the preview are concurrency.
- React wiring and the DOM are not modelled: state hooks, effects, global mouse listeners, stale callback captures and re-render timing. Neither is resetting the file input's value when the image is removed, which lets the same file be chosen again. The model's state is passed and returned explicitly.
- `handleMouseDown` and `handleMouseUp` are not modelled. They set and clear the dragged layer, which the model takes as an input.
- The composer's `handleLocalSelect` is not modelled. It repeats the upload checks modelled in `ImageInput.HandleFile` and then sets one URL.
- The composer's `confirmUseAsInput` is not modelled. It converts the preview to a file, which is I/O.
- localStorage, JSON and the clock are not modelled. A 2xx reply whose body does not parse makes `response.json()` throw, and is modelled as `Polling.NetworkError` or `GenerateRoute.Thrown` carrying the parser's message. Storage entries are values with an explicit absent/corrupt/parsed case, and the time is a parameter.
- Network and timers are not modelled. Every backend and upstream answer is an input, and the 500 ms pause between polls is left out. The route's query values are taken as already URL-decoded.
- The route's console logging is not modelled.
- Unicode is only partly modelled. `trim` uses the full JavaScript white-space set, but case mapping covers only ASCII letters. String length counts Dafny characters, not UTF-16 code units.
- The remaining files are not modelled: the stand-alone Node polling scripts, the live API smoke test, the header, layout, prompt-input, API-key settings and test-page components, and the echo test route. They are markup, wiring or live network tests.

