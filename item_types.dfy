/** The closed set of status item kinds (`AiAgentStatusItemTypes`): a
    string-backed enum with a human-readable title per case. */
module ItemTypes {
  import opened PhpValues

  datatype ItemType =
    | Started
    | Finished
    | Iteration
    | Response
    | Request
    | ChatHistory
    | ProviderRequest
    | ProviderResponse
    | TextGenerated
    | SystemMessage
    | ToolSelected
    | ToolStarted
    | ToolFinished

  /** Every case, in declaration order. */
  const AllTypes: seq<ItemType> := [
    Started, Finished, Iteration, Response, Request, ChatHistory,
    ProviderRequest, ProviderResponse, TextGenerated, SystemMessage,
    ToolSelected, ToolStarted, ToolFinished
  ]

  /** The backing string of a case (`$case->value`). */
  function TagValue(t: ItemType): string {
    match t
    case Started => "agent_started"
    case Finished => "agent_finished"
    case Iteration => "agent_iteration"
    case Response => "agent_response"
    case Request => "agent_request"
    case ChatHistory => "agent_chat_history"
    case ProviderRequest => "ai_provider_request"
    case ProviderResponse => "ai_provider_response"
    case TextGenerated => "text_generated"
    case SystemMessage => "system_message"
    case ToolSelected => "tool_selected"
    case ToolStarted => "tool_started"
    case ToolFinished => "tool_finished"
  }

  /** The case backed by a string, if any (`tryFrom`, which PHP provides
      for every string-backed enum). */
  function TryFrom(s: string): (r: Option<ItemType>)
    ensures r.Some? ==> TagValue(r.value) == s
    ensures r.None? ==> forall t :: TagValue(t) != s
  {
    if s == "agent_started" then Some(Started)
    else if s == "agent_finished" then Some(Finished)
    else if s == "agent_iteration" then Some(Iteration)
    else if s == "agent_response" then Some(Response)
    else if s == "agent_request" then Some(Request)
    else if s == "agent_chat_history" then Some(ChatHistory)
    else if s == "ai_provider_request" then Some(ProviderRequest)
    else if s == "ai_provider_response" then Some(ProviderResponse)
    else if s == "text_generated" then Some(TextGenerated)
    else if s == "system_message" then Some(SystemMessage)
    else if s == "tool_selected" then Some(ToolSelected)
    else if s == "tool_started" then Some(ToolStarted)
    else if s == "tool_finished" then Some(ToolFinished)
    else None
  }

  /** `getTitle()`: a label for every case. */
  function Title(t: ItemType): string {
    match t
    case Finished => "Agent Finished"
    case Started => "Agent Started"
    case ToolSelected => "Tool Selected"
    case ToolStarted => "Tool Started"
    case ToolFinished => "Tool Finished"
    case Iteration => "Agent Iterated"
    case Response => "Agent Responded"
    case Request => "Agent Requested"
    case ChatHistory => "Agent Chat History"
    case ProviderRequest => "AI Provider Request"
    case ProviderResponse => "AI Provider Response"
    case TextGenerated => "Text Generated"
    case SystemMessage => "System Message"
  }

  /** Reading a case's own backing string back gives that case. */
  lemma TryFromTagValue(t: ItemType)
    ensures TryFrom(TagValue(t)) == Some(t)
  {
  }

  /** Backing strings are pairwise distinct, so a tag names at most one case. */
  lemma TagValueInjective(a: ItemType, b: ItemType)
    requires TagValue(a) == TagValue(b)
    ensures a == b
  {
    TryFromTagValue(a);
    TryFromTagValue(b);
  }

  /** A case's position in the declaration. */
  function Position(t: ItemType): nat {
    match t
    case Started => 0
    case Finished => 1
    case Iteration => 2
    case Response => 3
    case Request => 4
    case ChatHistory => 5
    case ProviderRequest => 6
    case ProviderResponse => 7
    case TextGenerated => 8
    case SystemMessage => 9
    case ToolSelected => 10
    case ToolStarted => 11
    case ToolFinished => 12
  }

  /** `AllTypes` lists each case at its own position. */
  lemma AllTypesPositions()
    ensures |AllTypes| == 13
    ensures forall t :: Position(t) < 13 && AllTypes[Position(t)] == t
    ensures forall i :: 0 <= i < |AllTypes| ==> Position(AllTypes[i]) == i
  {
  }

  /** The enum has exactly thirteen cases, listed once each, with thirteen
      distinct backing strings. */
  lemma ThirteenCases()
    ensures |AllTypes| == 13
    ensures forall t :: t in AllTypes
    ensures forall i, j :: 0 <= i < j < |AllTypes| ==> TagValue(AllTypes[i]) != TagValue(AllTypes[j])
  {
    AllTypesPositions();
    forall t ensures t in AllTypes {
      assert AllTypes[Position(t)] == t;
    }
    forall i, j | 0 <= i < j < |AllTypes|
      ensures TagValue(AllTypes[i]) != TagValue(AllTypes[j])
    {
      if TagValue(AllTypes[i]) == TagValue(AllTypes[j]) {
        TagValueInjective(AllTypes[i], AllTypes[j]);
      }
    }
  }

  /** Every case has a title, and no two cases share one, so a title
      names its case. */
  lemma TitleInjective(a: ItemType, b: ItemType)
    ensures |Title(a)| > 0
    ensures Title(a) == Title(b) ==> a == b
  {
  }

  /** The thirteen titles, listed in declaration order, are pairwise
      distinct. */
  lemma TitlesDistinct()
    ensures forall i, j :: 0 <= i < j < |AllTypes| ==> Title(AllTypes[i]) != Title(AllTypes[j])
  {
    AllTypesPositions();
    forall i, j | 0 <= i < j < |AllTypes|
      ensures Title(AllTypes[i]) != Title(AllTypes[j])
    {
      TitleInjective(AllTypes[i], AllTypes[j]);
    }
  }
}
