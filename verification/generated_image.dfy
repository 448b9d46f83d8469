/** The generated-image panel: the colour and label shown for a generation
    status, the choice of what the main area shows, and the flag that records
    that the image failed to load. */
module GeneratedImage {

  import opened Wrappers
  import Text

  /** What the main area shows. */
  datatype Panel = ShowImage(url: string) | LoadFailed | Spinner(status: string) | Placeholder

  /** The panel's own state. */
  datatype PanelState = PanelState(showSettings: bool, imageLoadError: bool)

  /** Events that change the load-error flag. */
  datatype ImageEvent = ImageError | ImageLoaded | RetryClicked

  const BlueText := "text-blue-600"
  const GreenText := "text-green-600"
  const RedText := "text-red-600"
  const GrayText := "text-gray-600"

  const ProcessingLabel := "正在生成图像..."
  const ReadyLabel := "图像生成完成！"
  const FailedLabel := "图像生成失败"
  const WaitingLabel := "等待生成..."

  /** The statuses with a label of their own. */
  predicate KnownStatus(status: string) {
    status == "Processing" || status == "Ready" || status == "Error" || status == "Failed"
  }

  /** `getStatusColor`. */
  function StatusColor(status: string): (c: string)
    ensures !KnownStatus(status) ==> c == GrayText
    ensures c == RedText <==> status == "Error" || status == "Failed"
  {
    match status
    case "Processing" => BlueText
    case "Ready" => GreenText
    case "Error" => RedText
    case "Failed" => RedText
    case _ => GrayText
  }

  /** `getStatusText`. */
  function StatusText(status: string): (t: string)
    ensures !KnownStatus(status) ==> t == WaitingLabel
    ensures t == FailedLabel <==> status == "Error" || status == "Failed"
  {
    match status
    case "Processing" => ProcessingLabel
    case "Ready" => ReadyLabel
    case "Error" => FailedLabel
    case "Failed" => FailedLabel
    case _ => WaitingLabel
  }

  /** The status table: each known status with its colour and label. */
  lemma StatusTable()
    ensures StatusColor("Processing") == BlueText && StatusText("Processing") == ProcessingLabel
    ensures StatusColor("Ready") == GreenText && StatusText("Ready") == ReadyLabel
    ensures StatusColor("Error") == StatusColor("Failed") && StatusText("Error") == StatusText("Failed")
    ensures StatusColor("") == GrayText && StatusText("") == WaitingLabel
  {
  }

  /** Colour and label always agree: two statuses get the same label exactly
      when they get the same colour. */
  lemma ColorMatchesText(s1: string, s2: string)
    ensures StatusText(s1) == StatusText(s2) <==> StatusColor(s1) == StatusColor(s2)
  {
  }

  /** The main area, first match wins: the image while a URL is set and it
      has not failed to load, the load-failure panel when it has, the spinner
      with the status while generating, and the placeholder otherwise. */
  function MainPanel(generatedImageUrl: Option<string>, imageLoadError: bool, isGenerating: bool,
                     generationStatus: string): (p: Panel)
    ensures p.ShowImage? <==> Text.Present(generatedImageUrl) && !imageLoadError
    ensures p.ShowImage? ==> p.url == generatedImageUrl.value
    ensures p.LoadFailed? <==> Text.Present(generatedImageUrl) && imageLoadError
    ensures p.Spinner? <==> !Text.Present(generatedImageUrl) && isGenerating
    ensures p.Spinner? ==> p.status == generationStatus
    ensures p.Placeholder? <==> !Text.Present(generatedImageUrl) && !isGenerating
  {
    if Text.Present(generatedImageUrl) && !imageLoadError then ShowImage(generatedImageUrl.value)
    else if Text.Present(generatedImageUrl) && imageLoadError then LoadFailed
    else if isGenerating then Spinner(generationStatus)
    else Placeholder
  }

  /** A set URL hides the generation progress: whatever the generating flag
      and status, the main area depends only on the URL and the flag. */
  lemma UrlTakesPriority(url: string, imageLoadError: bool, g1: bool, s1: string, g2: bool, s2: string)
    requires url != ""
    ensures MainPanel(Some(url), imageLoadError, g1, s1) == MainPanel(Some(url), imageLoadError, g2, s2)
  {
  }

  /** The load-error flag after an event: an image error sets it, a
      successful load or the retry button clears it. */
  function OnImageEvent(st: PanelState, e: ImageEvent): (r: PanelState)
    ensures r.imageLoadError <==> e.ImageError?
    ensures r.showSettings == st.showSettings
  {
    match e
    case ImageError => st.(imageLoadError := true)
    case ImageLoaded => st.(imageLoadError := false)
    case RetryClicked => st.(imageLoadError := false)
  }

  /** Retrying after a failed load shows the image again. */
  lemma RetryShowsImage(st: PanelState, url: string, isGenerating: bool, status: string)
    requires url != ""
    ensures var failed := OnImageEvent(st, ImageError);
            var retried := OnImageEvent(failed, RetryClicked);
            && MainPanel(Some(url), failed.imageLoadError, isGenerating, status) == LoadFailed
            && MainPanel(Some(url), retried.imageLoadError, isGenerating, status) == ShowImage(url)
  {
  }

  /** The settings button toggles the settings area and nothing else. */
  function ToggleSettings(st: PanelState): (r: PanelState)
    ensures r.showSettings == !st.showSettings
    ensures r.imageLoadError == st.imageLoadError
  {
    st.(showSettings := !st.showSettings)
  }

  /** Toggling twice restores the state. */
  lemma ToggleTwice(st: PanelState)
    ensures ToggleSettings(ToggleSettings(st)) == st
  {
  }
}
