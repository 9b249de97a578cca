/**
 * Opaque payload types that the envelope carries but whose shape lives in
 * files that are not part of this model (src/shared/api.ts and
 * src/shared/AutoApprovalSettings.ts). Nothing in the core inspects them.
 */
module HostSettings {

  type ApiConfiguration

  type AutoApprovalSettings
}

/**
 * The envelope the webview sends to the extension host
 * (src/shared/WebviewMessage.ts): a required kind tag drawn from a fixed
 * set of 25 string literals, plus payload fields that are all optional.
 */
module WebviewMessages {

  import opened Wrappers
  import opened SystemPrompts
  import HostSettings

  /** The `type` union: one constructor per string literal, in source order. */
  datatype MessageType =
    | ApiConfiguration
    | CustomInstructions
    | WebviewDidLaunch
    | NewTask
    | AskResponse
    | ClearTask
    | DidShowAnnouncement
    | SelectImages
    | ExportCurrentTask
    | ShowTaskWithId
    | DeleteTaskWithId
    | ExportTaskWithId
    | ResetState
    | RequestOllamaModels
    | RequestLmStudioModels
    | OpenImage
    | OpenFile
    | OpenMention
    | CancelTask
    | RefreshOpenRouterModels
    | OpenMcpSettings
    | RestartMcpServer
    | AutoApprovalSettings
    | LoadSystemPrompts
    | UpdateSystemPrompt

  /** The string literal that stands for each tag on the wire. */
  function TagName(t: MessageType): string
  {
    match t
    case ApiConfiguration => "apiConfiguration"
    case CustomInstructions => "customInstructions"
    case WebviewDidLaunch => "webviewDidLaunch"
    case NewTask => "newTask"
    case AskResponse => "askResponse"
    case ClearTask => "clearTask"
    case DidShowAnnouncement => "didShowAnnouncement"
    case SelectImages => "selectImages"
    case ExportCurrentTask => "exportCurrentTask"
    case ShowTaskWithId => "showTaskWithId"
    case DeleteTaskWithId => "deleteTaskWithId"
    case ExportTaskWithId => "exportTaskWithId"
    case ResetState => "resetState"
    case RequestOllamaModels => "requestOllamaModels"
    case RequestLmStudioModels => "requestLmStudioModels"
    case OpenImage => "openImage"
    case OpenFile => "openFile"
    case OpenMention => "openMention"
    case CancelTask => "cancelTask"
    case RefreshOpenRouterModels => "refreshOpenRouterModels"
    case OpenMcpSettings => "openMcpSettings"
    case RestartMcpServer => "restartMcpServer"
    case AutoApprovalSettings => "autoApprovalSettings"
    case LoadSystemPrompts => "loadSystemPrompts"
    case UpdateSystemPrompt => "updateSystemPrompt"
  }

  /**
   * Reads a wire tag back; a string outside the union is not a tag. The
   * length and the first character together tell the 25 literals apart.
   */
  function ParseTag(s: string): (r: Option<MessageType>)
    ensures r.Some? ==> TagName(r.value) == s
  {
    match |s|
    case 7 => Accept(s, NewTask)
    case 8 => Accept(s, OpenFile)
    case 9 =>
      (match s[0]
      case 'c' => Accept(s, ClearTask)
      case 'o' => Accept(s, OpenImage)
      case _ => None)
    case 10 =>
      (match s[0]
      case 'r' => Accept(s, ResetState)
      case 'c' => Accept(s, CancelTask)
      case _ => None)
    case 11 =>
      (match s[0]
      case 'a' => Accept(s, AskResponse)
      case 'o' => Accept(s, OpenMention)
      case _ => None)
    case 12 => Accept(s, SelectImages)
    case 14 => Accept(s, ShowTaskWithId)
    case 15 => Accept(s, OpenMcpSettings)
    case 16 =>
      (match s[0]
      case 'a' => Accept(s, ApiConfiguration)
      case 'w' => Accept(s, WebviewDidLaunch)
      case 'd' => Accept(s, DeleteTaskWithId)
      case 'e' => Accept(s, ExportTaskWithId)
      case 'r' => Accept(s, RestartMcpServer)
      case _ => None)
    case 17 =>
      (match s[0]
      case 'e' => Accept(s, ExportCurrentTask)
      case 'l' => Accept(s, LoadSystemPrompts)
      case _ => None)
    case 18 =>
      (match s[0]
      case 'c' => Accept(s, CustomInstructions)
      case 'u' => Accept(s, UpdateSystemPrompt)
      case _ => None)
    case 19 =>
      (match s[0]
      case 'd' => Accept(s, DidShowAnnouncement)
      case 'r' => Accept(s, RequestOllamaModels)
      case _ => None)
    case 20 => Accept(s, AutoApprovalSettings)
    case 21 => Accept(s, RequestLmStudioModels)
    case 23 => Accept(s, RefreshOpenRouterModels)
    case _ => None
  }

  /** `t` when `s` is its wire string, and nothing otherwise. */
  function Accept(s: string, t: MessageType): Option<MessageType>
  {
    if s == TagName(t) then Some(t) else None
  }

  /** Every tag of the union, in source order. */
  const AllTags: seq<MessageType> := [
      ApiConfiguration, CustomInstructions, WebviewDidLaunch, NewTask, AskResponse,
      ClearTask, DidShowAnnouncement, SelectImages, ExportCurrentTask, ShowTaskWithId,
      DeleteTaskWithId, ExportTaskWithId, ResetState, RequestOllamaModels, RequestLmStudioModels,
      OpenImage, OpenFile, OpenMention, CancelTask, RefreshOpenRouterModels,
      OpenMcpSettings, RestartMcpServer, AutoApprovalSettings, LoadSystemPrompts, UpdateSystemPrompt]

  /** The position of each tag in the union, counting from 0. */
  function TagIndex(t: MessageType): nat
  {
    match t
    case ApiConfiguration => 0
    case CustomInstructions => 1
    case WebviewDidLaunch => 2
    case NewTask => 3
    case AskResponse => 4
    case ClearTask => 5
    case DidShowAnnouncement => 6
    case SelectImages => 7
    case ExportCurrentTask => 8
    case ShowTaskWithId => 9
    case DeleteTaskWithId => 10
    case ExportTaskWithId => 11
    case ResetState => 12
    case RequestOllamaModels => 13
    case RequestLmStudioModels => 14
    case OpenImage => 15
    case OpenFile => 16
    case OpenMention => 17
    case CancelTask => 18
    case RefreshOpenRouterModels => 19
    case OpenMcpSettings => 20
    case RestartMcpServer => 21
    case AutoApprovalSettings => 22
    case LoadSystemPrompts => 23
    case UpdateSystemPrompt => 24
  }

  lemma TagIndexFindsTag(t: MessageType)
    ensures TagIndex(t) < |AllTags| && AllTags[TagIndex(t)] == t
  {
  }

  lemma TagAtIndex(i: nat)
    requires i < |AllTags|
    ensures TagIndex(AllTags[i]) == i
  {
  }

  /** The tag set has exactly 25 members, and the list names each of them once. */
  lemma AllTagsComplete()
    ensures |AllTags| == 25
    ensures forall t: MessageType :: t in AllTags
    ensures forall i, j :: 0 <= i < j < |AllTags| ==> AllTags[i] != AllTags[j]
  {
    forall t: MessageType ensures t in AllTags {
      TagIndexFindsTag(t);
    }
    forall i, j | 0 <= i < j < |AllTags| ensures AllTags[i] != AllTags[j] {
      TagAtIndex(i);
      TagAtIndex(j);
    }
  }

  /** Each tag reads back from its own wire string. */
  lemma TagRoundTrip(t: MessageType)
    ensures ParseTag(TagName(t)) == Some(t)
  {
    match t
    case ApiConfiguration =>
    case CustomInstructions =>
    case WebviewDidLaunch =>
    case NewTask =>
    case AskResponse =>
    case ClearTask =>
    case DidShowAnnouncement =>
    case SelectImages =>
    case ExportCurrentTask =>
    case ShowTaskWithId =>
    case DeleteTaskWithId =>
    case ExportTaskWithId =>
    case ResetState =>
    case RequestOllamaModels =>
    case RequestLmStudioModels =>
    case OpenImage =>
    case OpenFile =>
    case OpenMention =>
    case CancelTask =>
    case RefreshOpenRouterModels =>
    case OpenMcpSettings =>
    case RestartMcpServer =>
    case AutoApprovalSettings =>
    case LoadSystemPrompts =>
    case UpdateSystemPrompt =>
  }

  /** No two tags share a wire string. */
  lemma TagNameInjective(t: MessageType, u: MessageType)
    ensures TagName(t) == TagName(u) <==> t == u
  {
    TagRoundTrip(t);
    TagRoundTrip(u);
  }

  /** `ClineAskResponse`: the user's answer to a question the host asked. */
  datatype ClineAskResponse = YesButtonClicked | NoButtonClicked | MessageResponse

  function AskResponseName(a: ClineAskResponse): string
  {
    match a
    case YesButtonClicked => "yesButtonClicked"
    case NoButtonClicked => "noButtonClicked"
    case MessageResponse => "messageResponse"
  }

  function ParseAskResponse(s: string): (r: Option<ClineAskResponse>)
    ensures r.Some? ==> AskResponseName(r.value) == s
  {
    if s == "yesButtonClicked" then Some(YesButtonClicked)
    else if s == "noButtonClicked" then Some(NoButtonClicked)
    else if s == "messageResponse" then Some(MessageResponse)
    else None
  }

  /**
   * Each answer reads back from its own wire string; with the contract of
   * `ParseAskResponse`, no other string reads as an answer.
   */
  lemma AskResponseRoundTrip(a: ClineAskResponse)
    ensures ParseAskResponse(AskResponseName(a)) == Some(a)
  {
  }

  /**
   * The envelope. `type` and `bool` are Dafny keywords, so those two fields
   * are called `tag` and `flag` here; every other field keeps its name.
   */
  datatype WebviewMessage = WebviewMessage(
    tag: MessageType,
    text: Option<string>,
    askResponse: Option<ClineAskResponse>,
    apiConfiguration: Option<HostSettings.ApiConfiguration>,
    images: Option<seq<string>>,
    flag: Option<bool>,
    autoApprovalSettings: Option<HostSettings.AutoApprovalSettings>,
    systemPrompt: Option<SystemPrompt>)

  /**
   * None of the payload fields the selector widgets never fill: the answer,
   * the API configuration, the images, the boolean flag and the
   * auto-approval settings are all absent.
   */
  predicate NoOtherPayload(m: WebviewMessage)
  {
    && m.askResponse.None? && m.apiConfiguration.None? && m.images.None?
    && m.flag.None? && m.autoApprovalSettings.None?
  }

  /** An envelope that carries its tag and no payload at all. */
  function Message(t: MessageType): WebviewMessage
  {
    WebviewMessage(t, None, None, None, None, None, None, None)
  }

  /** The three wire tags the prompt selector sends are members of the union. */
  lemma PromptSelectorTagsInUnion()
    ensures ParseTag("openFile") == Some(OpenFile)
    ensures ParseTag("loadSystemPrompts") == Some(LoadSystemPrompts)
    ensures ParseTag("updateSystemPrompt") == Some(UpdateSystemPrompt)
  {
  }
}
