/** The fault-capture form: the quick suggestions it offers, the fault type
    it preselects from a classification, how voice, AI and suggestion
    clicks grow the description, and the event-log row it submits. */
module SmartCapture {
  import opened Common
  import opened Seqs
  import opened Text
  import ReportContext

  const MorningSuggestions: seq<string> := ["Pasta fría", "Arranque de línea"]
  const ShiftChangeSuggestions: seq<string> := ["Cambio de turno"]
  const PickSuggestions: seq<string> := ["Error de Pick-up", "Feeder atascado"]
  const SpiSuggestions: seq<string> := ["Pasta insuficiente", "Stencil sucio"]

  /** The suggestions for the hour of the day, then those for the machine
      type. */
  function Suggested(hour: int, machineType: string): seq<string> {
    (if 6 <= hour <= 8 then MorningSuggestions
     else if 12 <= hour <= 14 then ShiftChangeSuggestions
     else [])
    + (if Contains(machineType, "Pick") then PickSuggestions
       else if Contains(machineType, "SPI") then SpiSuggestions
       else [])
  }

  /** The suggestion list is built by pushing onto an empty array. */
  method BuildSuggestions(hour: int, machineType: string) returns (r: seq<string>)
    ensures r == Suggested(hour, machineType)
  {
    r := [];
    if 6 <= hour && hour <= 8 {
      r := r + ["Pasta fría"];
      r := r + ["Arranque de línea"];
    } else if 12 <= hour && hour <= 14 {
      r := r + ["Cambio de turno"];
    }
    if Contains(machineType, "Pick") {
      r := r + ["Error de Pick-up"];
      r := r + ["Feeder atascado"];
    } else if Contains(machineType, "SPI") {
      r := r + ["Pasta insuficiente"];
      r := r + ["Stencil sucio"];
    }
  }

  /** The hour decides the head of the list and the machine type its tail;
      a type naming both Pick and SPI gets only the Pick suggestions. */
  lemma SuggestedFacts(hour: int, machineType: string)
    ensures var r := Suggested(hour, machineType);
      var h := if 6 <= hour <= 8 then 2 else if 12 <= hour <= 14 then 1 else 0;
      var t := if Contains(machineType, "Pick") || Contains(machineType, "SPI") then 2 else 0;
      && |r| == h + t
      && (6 <= hour <= 8 ==> r[..2] == ["Pasta fría", "Arranque de línea"])
      && (12 <= hour <= 14 ==> r[..1] == ["Cambio de turno"])
      && (Contains(machineType, "Pick") ==> r[h..] == ["Error de Pick-up", "Feeder atascado"])
      && (!Contains(machineType, "Pick") && Contains(machineType, "SPI") ==>
            r[h..] == ["Pasta insuficiente", "Stencil sucio"])
      && (Contains(machineType, "Pick") ==> "Pasta insuficiente" !in r && "Stencil sucio" !in r)
  {
    var r := Suggested(hour, machineType);
    if Contains(machineType, "Pick") {
      assert "Pasta insuficiente" != "Pasta fría" && "Pasta insuficiente" != "Arranque de línea";
      assert "Stencil sucio" != "Pasta fría" && "Stencil sucio" != "Cambio de turno";
    }
  }

  /** A row of the active fault-type catalogue. */
  datatype FaultType = FaultType(id: string, name: string, category: string)

  /** The lower-cased name contains the lower-cased classification, or the
      other way round. */
  predicate Matches(f: FaultType, classification: string) {
    Contains(ToLower(f.name), ToLower(classification))
    || Contains(ToLower(classification), ToLower(f.name))
  }

  /** `faultTypes.find(...)`: the first fault type matching the
      classification. */
  function FindFaultType(types: seq<FaultType>, classification: string): (r: Option<FaultType>)
    ensures r.None? <==> forall j :: 0 <= j < |types| ==> !Matches(types[j], classification)
    ensures r.Some? ==> exists i :: (0 <= i < |types| && types[i] == r.value
      && Matches(types[i], classification)
      && forall j :: 0 <= j < i ==> !Matches(types[j], classification))
  {
    Find(types, f => Matches(f, classification))
  }

  /** `prev ? prev + sep + text : text`. */
  function AppendWith(prev: string, sep: string, text: string): (r: string)
    ensures prev == "" ==> r == text
    ensures prev != "" ==> (|r| == |prev| + |sep| + |text|
      && r[..|prev|] == prev && r[|prev|..|prev| + |sep|] == sep)
    ensures r[|r| - |text|..] == text
  {
    if prev != "" then prev + sep + text else text
  }

  /** A nullable string that JavaScript treats as true. */
  predicate Truthy(o: Option<string>) {
    o.Some? && o.value != ""
  }

  /** `description || voiceText || aiClassification`. */
  function ReportDescription(description: string, voiceText: string, ai: Option<string>): (r: Option<string>)
    ensures Truthy(r) <==> description != "" || voiceText != "" || Truthy(ai)
    ensures description != "" ==> r == Some(description)
    ensures description == "" && voiceText != "" ==> r == Some(voiceText)
    ensures description == "" && voiceText == "" ==> r == ai
  {
    if description != "" then Some(description)
    else if voiceText != "" then Some(voiceText)
    else ai
  }

  /** What a recent report contributes when clicked:
      `ai_classified_fault || description || ''`. */
  function RecentSuggestion(ai: Option<string>, description: Option<string>): (r: string)
    ensures Truthy(ai) ==> r == ai.value
    ensures !Truthy(ai) && Truthy(description) ==> r == description.value
    ensures r == "" <==> !Truthy(ai) && !Truthy(description)
  {
    if Truthy(ai) then ai.value else if Truthy(description) then description.value else ""
  }

  /** What the classification service answered, or that the call failed. */
  datatype AiReply = Replied(classification: Option<string>, isUnknown: bool) | CallFailed

  /** Where the report is filed: the ids the row refers to and the names
      the history entry shows. */
  datatype Target = Target(
    areaId: string, areaName: string,
    lineId: string, lineName: string,
    machineId: string, machineName: string)

  /** The inserted `event_logs` row. */
  datatype EventLog = EventLog(
    operatorId: string,
    areaId: string,
    productionLineId: string,
    machineId: string,
    faultTypeId: Option<string>,
    rawVoiceText: Option<string>,
    aiClassifiedFault: Option<string>,
    description: Option<string>,
    photoUrl: Option<string>,
    status: string)

  /** The photo step of the submission. */
  datatype Upload = NoPhoto | Uploaded(url: string) | UploadFailed

  /** `Skipped`: no signed-in user, nothing happens. `Failed`: the upload or
      the insert reported an error. `Sent`: the row was inserted, and the
      context and history entry to remember are handed to `saveContext`
      and `saveToHistory`. */
  datatype SubmitOutcome =
    | Skipped
    | Failed
    | Sent(log: EventLog, context: ReportContext.Context, recent: ReportContext.HistoryItem)

  class CaptureForm {
    var description: string
    var voiceText: string
    var aiClassification: Option<string>
    var selectedFaultType: Option<string>
    var faultTypes: seq<FaultType>
    var suggestions: seq<string>
    var isSubmitting: bool

    constructor ()
      ensures description == "" && voiceText == "" && aiClassification == None
      ensures selectedFaultType == None && faultTypes == [] && suggestions == []
      ensures !isSubmitting
    {
      description := "";
      voiceText := "";
      aiClassification := None;
      selectedFaultType := None;
      faultTypes := [];
      suggestions := [];
      isSubmitting := false;
    }

    /** The mount effect: keep the loaded catalogue when the query returned
        one, and build the suggestions for the current hour. */
    method Load(faults: Option<seq<FaultType>>, hour: int, machineType: string)
      modifies this
      ensures faultTypes == (if faults.Some? then faults.value else old(faultTypes))
      ensures suggestions == Suggested(hour, machineType)
      ensures description == old(description) && voiceText == old(voiceText)
      ensures aiClassification == old(aiClassification) && selectedFaultType == old(selectedFaultType)
      ensures isSubmitting == old(isSubmitting)
    {
      if faults.Some? {
        faultTypes := faults.value;
      }
      suggestions := BuildSuggestions(hour, machineType);
    }

    /** A recognised phrase is appended to the voice text after a space. */
    method OnVoiceResult(text: string)
      modifies this
      ensures voiceText == old(voiceText) + " " + text
      ensures description == old(description) && aiClassification == old(aiClassification)
      ensures selectedFaultType == old(selectedFaultType) && faultTypes == old(faultTypes)
      ensures suggestions == old(suggestions) && isSubmitting == old(isSubmitting)
    {
      voiceText := voiceText + " " + text;
    }

    /** Classify `text`. A non-empty classification is stored and preselects
        the first matching fault type; an unknown classification returns the
        term to record for the glossary; a failed call appends the text to
        the description on a new line. */
    method ProcessWithAi(text: string, reply: AiReply) returns (learned: Option<string>)
      modifies this
      ensures reply.CallFailed? ==> (learned == None
        && description == AppendWith(old(description), "\n", text)
        && aiClassification == old(aiClassification)
        && selectedFaultType == old(selectedFaultType))
      ensures reply.Replied? ==> (description == old(description)
        && learned == (if reply.isUnknown then Some(text) else None))
      ensures reply.Replied? && Truthy(reply.classification) ==>
        var found := FindFaultType(faultTypes, reply.classification.value);
        && aiClassification == reply.classification
        && selectedFaultType == (if found.Some? then Some(found.value.id) else old(selectedFaultType))
      ensures reply.Replied? && !Truthy(reply.classification) ==>
        aiClassification == old(aiClassification) && selectedFaultType == old(selectedFaultType)
      ensures voiceText == old(voiceText) && faultTypes == old(faultTypes)
      ensures suggestions == old(suggestions) && isSubmitting == old(isSubmitting)
    {
      learned := None;
      match reply {
        case CallFailed =>
          description := AppendWith(description, "\n", text);
        case Replied(classification, isUnknown) =>
          if Truthy(classification) {
            aiClassification := classification;
            var found := FindFaultType(faultTypes, classification.value);
            if found.Some? {
              selectedFaultType := Some(found.value.id);
            }
          }
          if isUnknown {
            learned := Some(text);
          }
      }
    }

    /** When listening stops, non-blank voice text is classified, trimmed. */
    method OnListeningStopped(reply: AiReply) returns (learned: Option<string>)
      modifies this
      ensures IsBlank(old(voiceText)) ==> (learned == None
        && description == old(description) && aiClassification == old(aiClassification)
        && selectedFaultType == old(selectedFaultType))
      ensures !IsBlank(old(voiceText)) && reply.CallFailed? ==>
        description == AppendWith(old(description), "\n", Trim(old(voiceText)))
      ensures !IsBlank(old(voiceText)) && reply.Replied? && reply.isUnknown ==>
        learned == Some(Trim(old(voiceText)))
      ensures voiceText == old(voiceText) && faultTypes == old(faultTypes)
      ensures suggestions == old(suggestions) && isSubmitting == old(isSubmitting)
    {
      learned := None;
      if !IsBlank(voiceText) {
        learned := ProcessWithAi(Trim(voiceText), reply);
      }
    }

    /** Clicking a suggestion appends it to the description after ". " and
        makes it the classification. */
    method OnSuggestionClick(suggestion: string)
      modifies this
      ensures description == AppendWith(old(description), ". ", suggestion)
      ensures aiClassification == Some(suggestion)
      ensures voiceText == old(voiceText) && selectedFaultType == old(selectedFaultType)
      ensures faultTypes == old(faultTypes) && suggestions == old(suggestions)
      ensures isSubmitting == old(isSubmitting)
    {
      description := AppendWith(description, ". ", suggestion);
      aiClassification := Some(suggestion);
    }

    /** The submit button is enabled. */
    predicate CanSubmit()
      reads this
    {
      !isSubmitting && (voiceText != "" || description != "" || Truthy(aiClassification))
    }

    /** The row `handleSubmit` inserts for the signed-in `user`. */
    function Payload(user: string, target: Target, photoUrl: Option<string>): (log: EventLog)
      reads this
      ensures log.operatorId == user && log.status == "open"
      ensures log.areaId == target.areaId && log.productionLineId == target.lineId
      ensures log.machineId == target.machineId
      ensures log.faultTypeId == selectedFaultType && log.aiClassifiedFault == aiClassification
      ensures log.rawVoiceText.None? <==> voiceText == ""
      ensures log.rawVoiceText.Some? ==> log.rawVoiceText.value == voiceText
      ensures log.description == ReportDescription(description, voiceText, aiClassification)
      ensures log.photoUrl == photoUrl
    {
      EventLog(user, target.areaId, target.lineId, target.machineId, selectedFaultType,
        if voiceText == "" then None else Some(voiceText),
        aiClassification,
        ReportDescription(description, voiceText, aiClassification),
        photoUrl, "open")
    }

    /** `handleSubmit`: nothing without a user; a failed upload stops before
        the insert; otherwise the row is inserted, with the photo's URL when
        one was uploaded. Only after a successful insert are the context and
        the history entry remembered, both for the place the row was filed
        under and stamped with the current time `now`. */
    function Submit(user: Option<string>, target: Target, upload: Upload, insertOk: bool, now: int): (r: SubmitOutcome)
      reads this
      ensures user.None? <==> r.Skipped?
      ensures r.Sent? <==> user.Some? && !upload.UploadFailed? && insertOk
      ensures r.Sent? ==> (r.log.operatorId == user.value
        && r.log.photoUrl == (if upload.Uploaded? then Some(upload.url) else None)
        && r.log.description == ReportDescription(description, voiceText, aiClassification))
      ensures r.Sent? ==> (r.context.areaId == Some(r.log.areaId)
        && r.context.lineId == Some(r.log.productionLineId)
        && r.context.machineId == Some(r.log.machineId)
        && r.context.timestamp == now)
      ensures r.Sent? ==> (r.recent.areaId == r.log.areaId && r.recent.areaName == target.areaName
        && r.recent.lineId == r.log.productionLineId && r.recent.lineName == target.lineName
        && r.recent.machineId == r.log.machineId && r.recent.machineName == target.machineName
        && r.recent.timestamp == now)
    {
      if user.None? then Skipped
      else if upload.UploadFailed? then Failed
      else
        var url := if upload.Uploaded? then Some(upload.url) else None;
        if insertOk then
          Sent(Payload(user.value, target, url),
            ReportContext.Context(Some(target.areaId), Some(target.lineId), Some(target.machineId), now),
            ReportContext.HistoryItem(target.areaId, target.areaName, target.lineId, target.lineName,
              target.machineId, target.machineName, now))
        else Failed
    }
  }

  /** Whenever the button is enabled, the submitted report has a non-empty
      description. */
  lemma EnabledSubmitHasDescription(form: CaptureForm, user: string, target: Target, photoUrl: Option<string>)
    requires form.CanSubmit()
    ensures Truthy(form.Payload(user, target, photoUrl).description)
  {
  }

  /** After a successful submission the reported machine heads the history
      and appears in it only once. */
  lemma SentMachineHeadsHistory(form: CaptureForm, user: Option<string>, target: Target, upload: Upload,
                                insertOk: bool, now: int, prev: seq<ReportContext.HistoryItem>)
    requires form.Submit(user, target, upload, insertOk, now).Sent?
    ensures var r := form.Submit(user, target, upload, insertOk, now);
      var h := ReportContext.PushHistory(prev, r.recent);
      && h[0].machineId == target.machineId
      && (forall k :: 1 <= k < |h| ==> h[k].machineId != target.machineId)
  {
  }
}
