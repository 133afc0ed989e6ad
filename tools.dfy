/** The tool schema declared to the speech model (constants.ts): six
    function declarations with their required arguments. */
module ToolSchema {
  import opened VancixTypes

  const OpenUrl := "openUrl"
  const MakeCall := "makeCall"
  const SendMessage := "sendMessage"
  const GetDeviceTime := "getDeviceTime"
  const GetContacts := "getContacts"
  const ManageSchedule := "manageSchedule"

  datatype Declaration = Declaration(name: string, parameters: seq<string>, required: seq<string>)

  const Declarations: seq<Declaration> := [
    Declaration(OpenUrl, ["url"], ["url"]),
    Declaration(MakeCall, ["number", "name"], ["number"]),
    Declaration(SendMessage, ["number", "message"], ["number", "message"]),
    Declaration(GetDeviceTime, [], []),
    Declaration(GetContacts, [], []),
    Declaration(ManageSchedule, ["action", "event", "time"], ["action"])
  ]

  /** The names of all declared tools. */
  const DeclaredNames: set<string> := {OpenUrl, MakeCall, SendMessage, GetDeviceTime, GetContacts, ManageSchedule}

  /** The tools whose handler hands a URL to the browser (`window.open`),
      the only handler code that can throw. */
  const WindowTools: set<string> := {OpenUrl, MakeCall, SendMessage}

  /** The declared tools, as the dispatcher tells them apart. */
  datatype Tool = OpenUrlTool | MakeCallTool | SendMessageTool | GetDeviceTimeTool | GetContactsTool | ManageScheduleTool {
    function Name(): string {
      match this
      case OpenUrlTool => OpenUrl
      case MakeCallTool => MakeCall
      case SendMessageTool => SendMessage
      case GetDeviceTimeTool => GetDeviceTime
      case GetContactsTool => GetContacts
      case ManageScheduleTool => ManageSchedule
    }

    /** Whether the handler hands a URL to the browser. */
    predicate OpensWindow() {
      OpenUrlTool? || MakeCallTool? || SendMessageTool?
    }
  }

  /** The dispatcher's chain of name tests: the tool a call names, if it
      names a declared one. */
  function Lookup(name: string): (t: Option<Tool>)
    ensures t.Some? ==> t.value.Name() == name
  {
    if name == OpenUrl then Some(OpenUrlTool)
    else if name == MakeCall then Some(MakeCallTool)
    else if name == SendMessage then Some(SendMessageTool)
    else if name == GetDeviceTime then Some(GetDeviceTimeTool)
    else if name == GetContacts then Some(GetContactsTool)
    else if name == ManageSchedule then Some(ManageScheduleTool)
    else None
  }

  /** The name tests recognise exactly the declared names, and the tools
      that open a window are exactly `WindowTools`. */
  lemma LookupMatchesSchema(name: string)
    ensures Lookup(name).None? <==> name !in DeclaredNames
    ensures Lookup(name).Some? && Lookup(name).value.OpensWindow() <==> name in WindowTools
  {
  }

  /** Every declaration's required arguments are among its parameters, the
      names are pairwise distinct, and they are exactly `DeclaredNames`. */
  lemma SchemaWellFormed()
    ensures forall i :: 0 <= i < |Declarations| ==>
      forall a :: a in Declarations[i].required ==> a in Declarations[i].parameters
    ensures forall i, j :: 0 <= i < j < |Declarations| ==> Declarations[i].name != Declarations[j].name
    ensures DeclaredNames == set d | d in Declarations :: d.name
    ensures WindowTools <= DeclaredNames
  {
  }
}
