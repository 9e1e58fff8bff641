/**
  The message scan of an inference request: shape, size and the effective
  classification (saas_os/control_plane/inference/resolution.py,
  `validate_request`).
 */
module RequestValidation {
  import opened Common
  import opened Eligibility

  datatype Part = Part(classification: string, kind: string, text: Option<string>)

  datatype Message = Message(role: string, hasToolCall: bool, parts: seq<Part>)

  datatype UseCase = UseCase(maxClassification: string, partKinds: set<string>, maxParts: nat, maxInputBytes: nat)

  datatype Invalid =
    | NoMessages | ToolMessages | BadMessage | InvalidClassification | PartKindNotAllowed
    | PartKindUnsupported | PartText | SystemNotFirst | TooManyParts | InputTooLarge
    | LastMustBeUser | AboveCeiling

  datatype Turn = Turn(role: string, text: string)

  datatype Acc = Acc(rank: int, parts: nat, total: nat, systems: seq<string>, turns: seq<Turn>)

  datatype Scan = Scan(acc: Acc, texts: seq<string>)

  /** `CLASSIFICATION_RANK`; -1 for what is not a classification. */
  function Rank(classification: string): (r: int)
    ensures -1 <= r <= 2 && (r >= 0 <==> classification in CLASSIFICATIONS)
    ensures r >= 0 ==> CLASSIFICATIONS[r] == classification
  {
    if classification == CLASSIFICATIONS[0] then 0
    else if classification == CLASSIFICATIONS[1] then 1
    else if classification == CLASSIFICATIONS[2] then 2
    else -1
  }

  function Utf8Length(s: string): (r: nat)
  {
    if s == [] then 0
    else
      var code := s[|s| - 1] as int;
      Utf8Length(s[..|s| - 1]) + if code < 0x80 then 1 else if code < 0x800 then 2 else if code < 0x10000 then 3 else 4
  }

  function JoinLines(texts: seq<string>): (r: string)
  {
    if texts == [] then ""
    else if |texts| == 1 then texts[0]
    else JoinLines(texts[..|texts| - 1]) + "\n" + texts[|texts| - 1]
  }

  function PartRefusal(part: Part, u: UseCase): (r: Option<Invalid>)
  {
    if part.classification !in CLASSIFICATIONS then Some(InvalidClassification)
    else if part.kind !in u.partKinds then Some(PartKindNotAllowed)
    else if part.kind != "text" then Some(PartKindUnsupported)
    else if part.text.None? then Some(PartText)
    else None
  }

  function ScanParts(acc: Acc, parts: seq<Part>, u: UseCase): (r: Result<Scan, Invalid>)
  {
    if parts == [] then Ok(Scan(acc, []))
    else
      var part := parts[|parts| - 1];
      var before := ScanParts(acc, parts[..|parts| - 1], u);
      if before.Err? then before
      else if PartRefusal(part, u).Some? then Err(PartRefusal(part, u).value)
      else
        var a := before.value.acc;
        Ok(Scan(a.(rank := Max(a.rank, Rank(part.classification)), parts := a.parts + 1,
                   total := a.total + Utf8Length(part.text.value)),
                before.value.texts + [part.text.value]))
  }

  function MessageRefusal(m: Message): (r: Option<Invalid>)
  {
    if m.role == "tool" || m.hasToolCall then Some(ToolMessages)
    else if m.role !in {"system", "user", "assistant"} || m.parts == [] then Some(BadMessage)
    else None
  }

  function ScanMessage(acc: Acc, m: Message, index: nat, u: UseCase): (r: Result<Acc, Invalid>)
  {
    if MessageRefusal(m).Some? then Err(MessageRefusal(m).value)
    else
      var scanned := ScanParts(acc, m.parts, u);
      if scanned.Err? then Err(scanned.error)
      else if m.role != "system" then
        Ok(scanned.value.acc.(turns := scanned.value.acc.turns + [Turn(m.role, JoinLines(scanned.value.texts))]))
      else if index != 0 then Err(SystemNotFirst)
      else Ok(scanned.value.acc.(systems := scanned.value.acc.systems + [JoinLines(scanned.value.texts)]))
  }

  function ScanMessages(messages: seq<Message>, u: UseCase): (r: Result<Acc, Invalid>)
  {
    if messages == [] then Ok(Acc(-1, 0, 0, [], []))
    else
      var index := |messages| - 1;
      var before := ScanMessages(messages[..index], u);
      if before.Err? then before else ScanMessage(before.value, messages[index], index, u)
  }

  datatype Verdict = Verdict(classification: string, system: Option<string>, turns: seq<Turn>, inputBytes: nat)

  function Conclude(acc: Acc, u: UseCase): (r: Result<Verdict, Invalid>)
  {
    if acc.parts > u.maxParts then Err(TooManyParts)
    else if acc.total > u.maxInputBytes then Err(InputTooLarge)
    else if acc.turns == [] || acc.turns[|acc.turns| - 1].role != "user" then Err(LastMustBeUser)
    else if !(0 <= acc.rank <= 2) || acc.rank > Rank(u.maxClassification) then Err(AboveCeiling)
    else Ok(Verdict(CLASSIFICATIONS[acc.rank], if acc.systems == [] then None else Some(acc.systems[0]), acc.turns,
                    acc.total))
  }

  function Validated(messages: seq<Message>, u: UseCase): (r: Result<Verdict, Invalid>)
  {
    if messages == [] then Err(NoMessages)
    else
      var acc := ScanMessages(messages, u);
      if acc.Err? then Err(acc.error) else Conclude(acc.value, u)
  }

  // --- the loops ---------------------------------------------------------------------

  /** The inner loop of one message. */
  method ReadParts(start: Acc, parts: seq<Part>, u: UseCase) returns (r: Result<Scan, Invalid>)
    ensures r == ScanParts(start, parts, u)
  {
    var acc, texts := start, [];
    for i := 0 to |parts|
      invariant ScanParts(start, parts[..i], u) == Ok(Scan(acc, texts))
    {
      assert parts[..i + 1][..i] == parts[..i];
      var part := parts[i];
      if PartRefusal(part, u).Some? {
        ScanPartsStops(start, parts, i + 1, u);
        return Err(PartRefusal(part, u).value);
      }
      acc := acc.(rank := Max(acc.rank, Rank(part.classification)), parts := acc.parts + 1,
                  total := acc.total + Utf8Length(part.text.value));
      texts := texts + [part.text.value];
    }
    assert parts[..|parts|] == parts;
    return Ok(Scan(acc, texts));
  }

  /** One pass of the outer loop. */
  method ReadMessage(start: Acc, m: Message, index: nat, u: UseCase) returns (r: Result<Acc, Invalid>)
    ensures r == ScanMessage(start, m, index, u)
  {
    if MessageRefusal(m).Some? {
      return Err(MessageRefusal(m).value);
    }
    var scanned := ReadParts(start, m.parts, u);
    if scanned.Err? {
      return Err(scanned.error);
    }
    var acc := scanned.value.acc;
    var text := JoinLines(scanned.value.texts);
    if m.role == "system" {
      if index != 0 {
        return Err(SystemNotFirst);
      }
      return Ok(acc.(systems := acc.systems + [text]));
    }
    return Ok(acc.(turns := acc.turns + [Turn(m.role, text)]));
  }

  /** `validate_request` from the messages on. */
  method ValidateMessages(messages: seq<Message>, u: UseCase) returns (r: Result<Verdict, Invalid>)
    ensures r == Validated(messages, u)
  {
    if messages == [] {
      return Err(NoMessages);
    }
    var acc := Acc(-1, 0, 0, [], []);
    for index := 0 to |messages|
      invariant ScanMessages(messages[..index], u) == Ok(acc)
    {
      assert messages[..index + 1][..index] == messages[..index];
      var read := ReadMessage(acc, messages[index], index, u);
      if read.Err? {
        ScanMessagesStops(messages, index + 1, u);
        return Err(read.error);
      }
      acc := read.value;
    }
    assert messages[..|messages|] == messages;
    return Conclude(acc, u);
  }

  lemma {:induction false} ScanPartsStops(acc: Acc, parts: seq<Part>, n: nat, u: UseCase)
    requires n <= |parts| && ScanParts(acc, parts[..n], u).Err?
    ensures ScanParts(acc, parts, u) == ScanParts(acc, parts[..n], u)
  {
    if n == |parts| {
      assert parts[..n] == parts;
    } else {
      assert parts[..|parts| - 1][..n] == parts[..n];
      ScanPartsStops(acc, parts[..|parts| - 1], n, u);
    }
  }

  lemma {:induction false} ScanMessagesStops(messages: seq<Message>, n: nat, u: UseCase)
    requires n <= |messages| && ScanMessages(messages[..n], u).Err?
    ensures ScanMessages(messages, u) == ScanMessages(messages[..n], u)
  {
    if n == |messages| {
      assert messages[..n] == messages;
    } else {
      assert messages[..|messages| - 1][..n] == messages[..n];
      ScanMessagesStops(messages[..|messages| - 1], n, u);
    }
  }

  // --- what an accepted request is ------------------------------------------------------

  function AllParts(messages: seq<Message>): (r: seq<Part>)
  {
    if messages == [] then [] else AllParts(messages[..|messages| - 1]) + messages[|messages| - 1].parts
  }

  function Bytes(parts: seq<Part>): (r: nat)
  {
    if parts == [] then 0
    else Bytes(parts[..|parts| - 1])
         + if parts[|parts| - 1].text.Some? then Utf8Length(parts[|parts| - 1].text.value) else 0
  }

  lemma {:induction false} BytesConcat(xs: seq<Part>, ys: seq<Part>)
    ensures Bytes(xs + ys) == Bytes(xs) + Bytes(ys)
  {
    if ys == [] {
      assert xs + ys == xs;
    } else {
      assert (xs + ys)[..|xs + ys| - 1] == xs + ys[..|ys| - 1];
      BytesConcat(xs, ys[..|ys| - 1]);
    }
  }

  /** `rank` is the highest rank of the parts (-1: none). */
  ghost predicate Highest(rank: int, parts: seq<Part>)
  {
    && rank >= -1
    && (forall p :: p in parts ==> Rank(p.classification) <= rank)
    && (rank >= 0 ==> exists p :: p in parts && Rank(p.classification) == rank)
  }

  ghost predicate PartsFit(parts: seq<Part>, u: UseCase)
  {
    forall p :: p in parts ==> PartRefusal(p, u).None?
  }

  ghost predicate Represents(acc: Acc, parts: seq<Part>)
  {
    Highest(acc.rank, parts) && acc.parts == |parts| && acc.total == Bytes(parts)
  }

  lemma HighestSnoc(rank: int, parts: seq<Part>, p: Part)
    requires Highest(rank, parts)
    ensures Highest(Max(rank, Rank(p.classification)), parts + [p])
  {
    var all := parts + [p];
    assert p in all;
    if rank >= 0 {
      var q :| q in parts && Rank(q.classification) == rank;
      assert q in all;
    }
  }

  lemma RepresentsSnoc(acc: Acc, parts: seq<Part>, p: Part, r: Acc)
    requires Represents(acc, parts) && p.text.Some?
    requires r.rank == Max(acc.rank, Rank(p.classification)) && r.parts == acc.parts + 1
    requires r.total == acc.total + Utf8Length(p.text.value)
    ensures Represents(r, parts + [p])
  {
    HighestSnoc(acc.rank, parts, p);
    BytesConcat(parts, [p]);
  }

  lemma PartsFitSnoc(parts: seq<Part>, p: Part, u: UseCase)
    ensures PartsFit(parts + [p], u) <==> PartsFit(parts, u) && PartRefusal(p, u).None?
  {
    assert p in parts + [p];
    forall q | q in parts
      ensures q in parts + [p]
    {
    }
  }

  /** One more part. */
  lemma ScanPartsSnoc(acc: Acc, parts: seq<Part>, p: Part, u: UseCase)
    ensures var before, after := ScanParts(acc, parts, u), ScanParts(acc, parts + [p], u);
            && (after.Ok? <==> before.Ok? && PartRefusal(p, u).None?)
            && (after.Ok? ==>
                  var a, r := before.value.acc, after.value.acc;
                  && p.text.Some? && r.rank == Max(a.rank, Rank(p.classification)) && r.parts == a.parts + 1
                  && r.total == a.total + Utf8Length(p.text.value) && r.turns == a.turns && r.systems == a.systems)
  {
    assert (parts + [p])[..|parts|] == parts;
  }

  lemma {:induction false} ScanPartsMeans(acc: Acc, seen: seq<Part>, parts: seq<Part>, u: UseCase)
    requires Represents(acc, seen)
    ensures ScanParts(acc, parts, u).Ok? <==> PartsFit(parts, u)
    ensures ScanParts(acc, parts, u).Ok? ==>
              var r := ScanParts(acc, parts, u).value.acc;
              Represents(r, seen + parts) && r.turns == acc.turns && r.systems == acc.systems
  {
    if parts == [] {
      assert seen + parts == seen;
    } else {
      var before, last := parts[..|parts| - 1], parts[|parts| - 1];
      ScanPartsMeans(acc, seen, before, u);
      assert parts == before + [last];
      assert seen + parts == (seen + before) + [last];
      PartsFitSnoc(before, last, u);
      ScanPartsSnoc(acc, before, last, u);
      if ScanParts(acc, parts, u).Ok? {
        RepresentsSnoc(ScanParts(acc, before, u).value.acc, seen + before, last, ScanParts(acc, parts, u).value.acc);
      }
    }
  }

  ghost predicate MessageFits(m: Message, index: nat, u: UseCase)
  {
    MessageRefusal(m).None? && PartsFit(m.parts, u) && (m.role == "system" ==> index == 0)
  }

  ghost predicate MessagesFit(messages: seq<Message>, u: UseCase)
  {
    forall i :: 0 <= i < |messages| ==> MessageFits(messages[i], i, u)
  }

  lemma MessagesFitSnoc(messages: seq<Message>, u: UseCase)
    requires messages != []
    ensures var n := |messages| - 1;
            MessagesFit(messages, u) <==> MessagesFit(messages[..n], u) && MessageFits(messages[n], n, u)
  {
    var n := |messages| - 1;
    if MessagesFit(messages[..n], u) && MessageFits(messages[n], n, u) {
      forall i | 0 <= i < |messages|
        ensures MessageFits(messages[i], i, u)
      {
        if i < n {
          assert messages[..n][i] == messages[i];
        }
      }
    }
  }

  /** The last message decides the last turn. */
  ghost predicate TurnsEndAs(acc: Acc, messages: seq<Message>)
  {
    && |acc.turns| + |acc.systems| == |messages|
    && (messages != [] ==>
          if messages[|messages| - 1].role == "system" then acc.turns == []
          else acc.turns != [] && acc.turns[|acc.turns| - 1].role == messages[|messages| - 1].role)
  }

  lemma {:induction false} ScanMessagesMeans(messages: seq<Message>, u: UseCase)
    ensures ScanMessages(messages, u).Ok? <==> MessagesFit(messages, u)
    ensures ScanMessages(messages, u).Ok? ==>
              Represents(ScanMessages(messages, u).value, AllParts(messages))
              && TurnsEndAs(ScanMessages(messages, u).value, messages)
  {
    if messages != [] {
      var n := |messages| - 1;
      ScanMessagesMeans(messages[..n], u);
      MessagesFitSnoc(messages, u);
      if ScanMessages(messages[..n], u).Ok? {
        ScanPartsMeans(ScanMessages(messages[..n], u).value, AllParts(messages[..n]), messages[n].parts, u);
      }
    }
  }

  /** A request is accepted exactly when every message and part fits, the last
      message is the user's, and the counts, bytes and highest classification
      over all parts are within the use case; the classification used is that
      highest one. */
  lemma AcceptedExactly(messages: seq<Message>, u: UseCase)
    ensures Validated(messages, u).Ok? <==>
            && messages != [] && MessagesFit(messages, u)
            && messages[|messages| - 1].role == "user"
            && |AllParts(messages)| <= u.maxParts && Bytes(AllParts(messages)) <= u.maxInputBytes
            && forall p :: p in AllParts(messages) ==> Rank(p.classification) <= Rank(u.maxClassification)
    ensures Validated(messages, u).Ok? ==>
              var v := Validated(messages, u).value;
              && v.inputBytes == Bytes(AllParts(messages))
              && v.classification in CLASSIFICATIONS
              && (exists p :: p in AllParts(messages) && p.classification == v.classification)
              && (forall p :: p in AllParts(messages) ==> Rank(p.classification) <= Rank(v.classification))
              && Rank(v.classification) <= Rank(u.maxClassification)
  {
    ScanMessagesMeans(messages, u);
    if messages != [] && ScanMessages(messages, u).Ok? {
      var n := |messages| - 1;
      var acc := ScanMessages(messages, u).value;
      var first := messages[n].parts[0];
      assert first in AllParts(messages);
      assert PartRefusal(first, u).None?;
      assert acc.rank >= 0;
      var p :| p in AllParts(messages) && Rank(p.classification) == acc.rank;
      assert CLASSIFICATIONS[acc.rank] == p.classification;
      if messages[n].role == "assistant" || messages[n].role == "user" {
        assert acc.turns[|acc.turns| - 1].role == messages[n].role;
      }
    }
  }
}
