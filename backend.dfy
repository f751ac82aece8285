/**
 * The FastAPI backend (backend/main.py): the table of supported diagram types,
 * the /types listing, and the validation and clean-up that /generate applies
 * around the language model's reply. The model call itself is an input here:
 * either the text of its reply or the message of the exception it raised.
 */
module Backend {
  import opened Wrappers
  import opened Text

  /** Diagram type to the Mermaid header its code must start with, in table order. */
  const DiagramTypes: seq<(string, string)> := [
    ("flowchart", "graph TD"),
    ("sequence", "sequenceDiagram"),
    ("mindmap", "mindmap"),
    ("entity-relationship", "erDiagram"),
    ("class", "classDiagram"),
    ("state", "stateDiagram-v2"),
    ("gantt", "gantt"),
    ("pie", "pie")
  ]

  const DefaultType := "flowchart"
  const Fence := "```"
  const MermaidFence := "```mermaid"
  const InvalidTypeLead := "Invalid diagram type. Supported types: "
  const ModelErrorLead := "Error generating diagram: "

  /** The body of a POST /generate; a body without "type" gets the default. */
  datatype DiagramRequest = DiagramRequest(text: string, diagramType: string)

  datatype DiagramResponse = DiagramResponse(code: string, diagramType: string)

  /** An HTTPException: a status code and its detail text. */
  datatype HttpError = HttpError(status: int, detail: string)

  /** What the language model call produced: reply text, or a raised exception's message. */
  datatype ModelReply = Reply(text: string) | Raised(message: string)

  /** The body of GET /types. */
  datatype TypesResponse = TypesResponse(supportedTypes: seq<string>, defaultType: string)

  /** The keys of the table, in table order. */
  function TypeNames(): (names: seq<string>)
    ensures |names| == |DiagramTypes|
    ensures forall i :: 0 <= i < |names| ==> names[i] == DiagramTypes[i].0
  {
    seq(|DiagramTypes|, i requires 0 <= i < |DiagramTypes| => DiagramTypes[i].0)
  }

  /** DIAGRAM_TYPES[type], or None when `type` is not a key. */
  function PrefixFor(diagramType: string): (r: Option<string>)
    ensures r.Some? <==> diagramType in TypeNames()
    ensures r.Some? ==> (diagramType, r.value) in DiagramTypes
  {
    Lookup(DiagramTypes, diagramType)
  }

  /** Parses a request body: a missing "type" field becomes "flowchart". */
  function RequestFromBody(text: string, diagramType: Option<string>): (req: DiagramRequest)
    ensures req.text == text
    ensures diagramType.Some? ==> req.diagramType == diagramType.value
    ensures diagramType.None? ==> req.diagramType == DefaultType
  {
    DiagramRequest(text, if diagramType.Some? then diagramType.value else DefaultType)
  }

  /** The detail of the 400 response: every supported type, joined by ", ". */
  function InvalidTypeDetail(): (detail: string)
    ensures InvalidTypeLead <= detail
  {
    InvalidTypeLead + Join(TypeNames(), ", ")
  }

  /** The reply stripped, with "```mermaid" and then "```" removed, and stripped again. */
  function Unfenced(reply: string): (u: string)
    ensures |u| <= |reply|
  {
    Strip(Python, RemoveAll(RemoveAll(Strip(Python, reply), MermaidFence), Fence))
  }

  /** The code /generate returns for a reply: the unfenced text, with the header put in front if missing. */
  function CleanReply(reply: string, prefix: string): (code: string)
    ensures prefix <= code
    ensures prefix <= Unfenced(reply) ==> code == Unfenced(reply)
    ensures !(prefix <= Unfenced(reply)) ==> code == prefix + "\n" + Unfenced(reply)
  {
    var c := Unfenced(reply);
    if prefix <= c then c else prefix + "\n" + c
  }

  /** POST /generate: validate the type, then clean the model's reply or map its failure. */
  function GenerateDiagram(req: DiagramRequest, reply: ModelReply): (r: Result<DiagramResponse, HttpError>)
    ensures r.Failure? ==> r.error.status == 400 || r.error.status == 500
    ensures (r.Failure? && r.error.status == 400) <==> req.diagramType !in TypeNames()
    ensures r.Success? <==> req.diagramType in TypeNames() && reply.Reply?
    ensures r.Success? ==> r.value.diagramType == req.diagramType
    ensures r.Success? ==> PrefixFor(req.diagramType).value <= r.value.code
  {
    match PrefixFor(req.diagramType)
    case None => Failure(HttpError(400, InvalidTypeDetail()))
    case Some(prefix) =>
      match reply
      case Raised(message) => Failure(HttpError(500, ModelErrorLead + message))
      case Reply(text) => Success(DiagramResponse(CleanReply(text, prefix), req.diagramType))
  }

  /** GET /types. */
  function GetDiagramTypes(): (r: TypesResponse)
    ensures r.supportedTypes == TypeNames()
    ensures |r.supportedTypes| == 8
    ensures forall i, j :: 0 <= i < j < |r.supportedTypes| ==> r.supportedTypes[i] != r.supportedTypes[j]
    ensures forall t :: t in r.supportedTypes <==> PrefixFor(t).Some?
    ensures r.defaultType in r.supportedTypes && r.defaultType == r.supportedTypes[0]
  {
    TypesResponse(TypeNames(), DefaultType)
  }

  // ---------------------------------------------------------------------------
  // Fence removal leaves no fence behind

  /** The number of backticks a string begins with. */
  function LeadingTicks(s: string): nat
    decreases |s|
  {
    if |s| > 0 && s[0] == '`' then 1 + LeadingTicks(s[1..]) else 0
  }

  lemma LeadingTicksOfFence(s: string)
    requires Fence <= s
    ensures LeadingTicks(s) == 3 + LeadingTicks(s[3..])
  {
    assert s[..3] == Fence;
    assert s[0] == '`' && s[1] == '`' && s[2] == '`';
    assert s[2..][1..] == s[3..];
    assert LeadingTicks(s[2..]) == 1 + LeadingTicks(s[3..]);
    assert s[1..][1..] == s[2..];
    assert LeadingTicks(s[1..]) == 1 + LeadingTicks(s[2..]);
  }

  lemma FenceAtFront(s: string)
    requires |s| >= 3 && s[0] == '`' && s[1] == '`' && s[2] == '`'
    ensures Fence <= s
  {
    assert s[..3] == Fence;
  }

  /** A string that does not begin with a fence begins with at most two backticks. */
  lemma TicksBelowThree(s: string)
    requires !(Fence <= s)
    ensures LeadingTicks(s) <= 2
  {
    if LeadingTicks(s) >= 3 {
      assert s[0] == '`' && LeadingTicks(s[1..]) >= 2;
      var s1 := s[1..];
      assert s1[0] == '`' && LeadingTicks(s1[1..]) >= 1;
      assert s1[1..] == s[2..];
      assert s[2..][0] == '`';
      FenceAtFront(s);
    }
  }

  /** A string beginning with at most two backticks does not begin with a fence. */
  lemma NoFenceAtFront(s: string)
    requires LeadingTicks(s) <= 2
    ensures !(Fence <= s)
  {
    if Fence <= s {
      LeadingTicksOfFence(s);
    }
  }

  /** A run of backticks at the front keeps its length modulo 3. */
  lemma {:induction false} RemoveFencesLeadingTicks(s: string)
    ensures LeadingTicks(RemoveAll(s, Fence)) == LeadingTicks(s) % 3
    decreases |s|
  {
    if |s| == 0 {
    } else if Fence <= s {
      LeadingTicksOfFence(s);
      RemoveFencesLeadingTicks(s[3..]);
    } else {
      var r := RemoveAll(s, Fence);
      assert r[1..] == RemoveAll(s[1..], Fence);
      RemoveFencesLeadingTicks(s[1..]);
      TicksBelowThree(s);
    }
  }

  /** Python's s.replace("```", "") leaves no "```" in s. */
  lemma {:induction false} RemoveFencesNoFence(s: string)
    ensures !Contains(RemoveAll(s, Fence), Fence)
    decreases |s|
  {
    if |s| == 0 {
    } else if Fence <= s {
      RemoveFencesNoFence(s[3..]);
    } else {
      var r := RemoveAll(s, Fence);
      var rest := RemoveAll(s[1..], Fence);
      assert r == [s[0]] + rest && r[1..] == rest;
      RemoveFencesNoFence(s[1..]);
      RemoveFencesLeadingTicks(s[1..]);
      TicksBelowThree(s);
      NoFenceAtFront(r);
    }
  }

  /** A block that has `p` in front also contains `p`. */
  lemma {:induction false} ContainsLonger(s: string, p: string, q: string)
    requires Contains(s, p + q)
    ensures Contains(s, p)
    decreases |s|
  {
    if !(p + q <= s) {
      ContainsLonger(s[1..], p, q);
    } else {
      assert s[..|p|] == (p + q)[..|p|] == p;
    }
  }

  predicate NoBacktick(s: string)
  {
    forall i :: 0 <= i < |s| ==> s[i] != '`'
  }

  lemma UnfencedHasNoFence(reply: string)
    ensures !Contains(Unfenced(reply), Fence)
  {
    var t := RemoveAll(RemoveAll(Strip(Python, reply), MermaidFence), Fence);
    RemoveFencesNoFence(RemoveAll(Strip(Python, reply), MermaidFence));
    if Contains(Unfenced(reply), Fence) {
      StripContains(Python, t, Fence);
    }
  }

  /** Whenever the header itself has no backtick, the returned code contains no "```". */
  lemma {:induction false} CleanReplyHasNoFence(reply: string, prefix: string)
    requires NoBacktick(prefix)
    ensures !Contains(CleanReply(reply, prefix), Fence)
  {
    var c := Unfenced(reply);
    UnfencedHasNoFence(reply);
    if !(prefix <= c) {
      NoCharNoBlock(prefix + "\n", c, Fence);
      assert prefix + "\n" + c == (prefix + "\n") + c;
    }
  }

  /** An empty reply, or one that is only whitespace and fences, yields the header and a newline. */
  lemma EmptyReplyYieldsHeader(reply: string, prefix: string)
    requires |prefix| > 0
    requires Unfenced(reply) == ""
    ensures CleanReply(reply, prefix) == prefix + "\n"
  {
    assert prefix + "\n" + "" == prefix + "\n";
  }

  /** A reply that is already stripped, fence-free and headed is returned unchanged. */
  lemma CleanReplyKeepsCleanCode(reply: string, prefix: string)
    requires Strip(Python, reply) == reply
    requires !Contains(reply, Fence)
    requires prefix <= reply
    ensures CleanReply(reply, prefix) == reply
  {
    NoFenceNoMermaidFence(reply);
    RemoveAllAbsent(reply, MermaidFence);
    RemoveAllAbsent(reply, Fence);
    assert Unfenced(reply) == Strip(Python, reply);
  }

  lemma {:induction false} NoFenceNoMermaidFence(s: string)
    requires !Contains(s, Fence)
    ensures !Contains(s, MermaidFence)
  {
    if Contains(s, MermaidFence) {
      assert MermaidFence == Fence + "mermaid";
      ContainsLonger(s, Fence, "mermaid");
    }
  }

  /** The unfenced reply is stripped and has no fence. */
  lemma UnfencedIsClean(reply: string)
    ensures var c := Unfenced(reply);
      Strip(Python, c) == c && !Contains(c, Fence)
      && (|c| > 0 ==> !IsSpace(Python, c[0]) && !IsSpace(Python, c[|c| - 1]))
  {
    var t := RemoveAll(RemoveAll(Strip(Python, reply), MermaidFence), Fence);
    StripIdempotent(Python, t);
    StripEnds(Python, t);
    UnfencedHasNoFence(reply);
  }

  /** Cleaning the backend's own output again changes nothing, unless the unfenced reply was empty. */
  lemma CleanReplyIdempotent(reply: string, prefix: string)
    requires NoBacktick(prefix) && |prefix| > 0 && !IsSpace(Python, prefix[0])
    requires Unfenced(reply) != ""
    ensures CleanReply(CleanReply(reply, prefix), prefix) == CleanReply(reply, prefix)
  {
    var c := Unfenced(reply);
    var code := CleanReply(reply, prefix);
    UnfencedIsClean(reply);
    CleanReplyHasNoFence(reply, prefix);
    if !(prefix <= c) {
      assert code == prefix + "\n" + c;
      assert code[0] == prefix[0] && code[|code| - 1] == c[|c| - 1];
      StrippedAlready(Python, code);
    }
    CleanReplyKeepsCleanCode(code, prefix);
  }

  /** A string without backticks contains neither fence. */
  lemma NoBacktickNoFence(s: string)
    requires NoBacktick(s)
    ensures !Contains(s, Fence) && !Contains(s, MermaidFence)
  {
    NoCharNoBlock(s, "", Fence);
    NoCharNoBlock(s, "", MermaidFence);
    assert s + "" == s;
  }

  /** Where idempotence stops: the header and newline made for an empty reply are cleaned down to the bare header. */
  lemma RecleanedEmptyReplyDropsNewline(prefix: string)
    requires NoBacktick(prefix) && |prefix| > 0
    requires !IsSpace(Python, prefix[0]) && !IsSpace(Python, prefix[|prefix| - 1])
    ensures CleanReply("", prefix) == prefix + "\n"
    ensures CleanReply(prefix + "\n", prefix) == prefix
  {
    assert Unfenced("") == "";
    assert prefix + "\n" + "" == prefix + "\n";
    var once := prefix + "\n";
    assert TrimStart(Python, once) == once;
    assert once[..|once| - 1] == prefix;
    assert TrimEnd(Python, once) == TrimEnd(Python, prefix);
    StrippedAlready(Python, prefix);
    NoBacktickNoFence(prefix);
    RemoveAllAbsent(prefix, MermaidFence);
    RemoveAllAbsent(prefix, Fence);
  }

  // ---------------------------------------------------------------------------
  // The endpoint's promises

  /** Every table header is non-empty, has no backtick and does not begin with whitespace. */
  lemma HeadersAreSafe(i: nat)
    requires i < |DiagramTypes|
    ensures var p := DiagramTypes[i].1; |p| > 0 && NoBacktick(p) && !IsSpace(Python, p[0])
  {
  }

  /** The 400 detail names every supported type. */
  lemma InvalidTypeDetailListsEveryType()
    ensures forall t :: t in TypeNames() ==> Contains(InvalidTypeDetail(), t)
  {
    forall t | t in TypeNames() ensures Contains(InvalidTypeDetail(), t) {
      var i :| 0 <= i < |TypeNames()| && TypeNames()[i] == t;
      JoinContainsEach(TypeNames(), ", ", i);
      ContainsInSuffix(InvalidTypeLead, Join(TypeNames(), ", "), t);
    }
  }

  /** An unknown type is rejected with 400 whatever the model would have said: the model is never consulted. */
  lemma UnknownTypeRejected(req: DiagramRequest, reply: ModelReply, other: ModelReply)
    requires req.diagramType !in TypeNames()
    ensures GenerateDiagram(req, reply) == Failure(HttpError(400, InvalidTypeDetail()))
    ensures GenerateDiagram(req, reply) == GenerateDiagram(req, other)
  {
  }

  /** For a known type, the code begins with the type's header and has no fence. */
  lemma {:induction false} AcceptedCodeIsHeadedAndUnfenced(req: DiagramRequest, text: string)
    requires req.diagramType in TypeNames()
    ensures var r := GenerateDiagram(req, Reply(text));
      && r.Success?
      && r.value.diagramType == req.diagramType
      && PrefixFor(req.diagramType).value <= r.value.code
      && !Contains(r.value.code, Fence)
  {
    var prefix := PrefixFor(req.diagramType).value;
    var i :| 0 <= i < |DiagramTypes| && DiagramTypes[i] == (req.diagramType, prefix);
    HeadersAreSafe(i);
    CleanReplyHasNoFence(text, prefix);
  }

  /** Any other failure becomes 500 with the exception's message after a fixed lead. */
  lemma ModelFailureIs500(req: DiagramRequest, message: string)
    requires req.diagramType in TypeNames()
    ensures GenerateDiagram(req, Raised(message)) == Failure(HttpError(500, ModelErrorLead + message))
  {
  }

  /** A body without "type" is a flowchart request, answered with "graph TD" code. */
  lemma MissingTypeIsFlowchart(text: string, reply: string)
    ensures var r := GenerateDiagram(RequestFromBody(text, None), Reply(reply));
      r.Success? && r.value.diagramType == "flowchart" && "graph TD" <= r.value.code
  {
    assert TypeNames()[0] == "flowchart";
  }
}
