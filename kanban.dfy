/**
 * The conversations page: the transcript of the selected lead (fetched
 * history, realtime inserts with duplicate suppression, the render filter),
 * the lead list (projection from client rows, the urgent tab) and the
 * optimistic updates of pause/resume, delete and send.
 *
 * Storage reads, realtime channels and webhook calls are outside the model:
 * their results come in as parameters (`None` for a failed read), and the
 * webhook bodies the page would send come out as results. Timestamps are
 * milliseconds; `now` stands for the clock read where the page takes one.
 */
module Kanban {
  import opened Collections
  import opened JsText
  import opened Json
  import opened Messages

  // ---------------------------------------------------------------------------
  // Transcript
  // ---------------------------------------------------------------------------

  /** A chat turn as the page holds it. */
  datatype Turn = Turn(id: int, role: Role, content: string, createdAt: int)

  /** One fetched or pushed row as a turn; a missing timestamp becomes `now`. */
  function NormalizeRow(row: HistoryRow, now: int, parse: Parser): (t: Turn)
    requires ParsesObjects(parse)
    ensures t.id == row.id
    ensures t.content == CleanMessage(row.message, parse)
    ensures t.role == GetRole(row, parse)
    ensures t.createdAt == if row.createdAt.Some? then row.createdAt.value else now
  {
    Turn(row.id, GetRole(row, parse), CleanMessage(row.message, parse),
         match row.createdAt case Some(ms) => ms case None => now)
  }

  /** `data.map(...)` over the fetched history. */
  function NormalizeHistory(rows: seq<HistoryRow>, now: int, parse: Parser): (r: seq<Turn>)
    requires ParsesObjects(parse)
    ensures |r| == |rows|
  {
    if rows == [] then [] else [NormalizeRow(rows[0], now, parse)] + NormalizeHistory(rows[1..], now, parse)
  }

  /** Every fetched row becomes exactly one turn, at the same position. */
  lemma {:induction false} NormalizeHistoryOneToOne(rows: seq<HistoryRow>, now: int, parse: Parser)
    requires ParsesObjects(parse)
    ensures |NormalizeHistory(rows, now, parse)| == |rows|
    ensures forall i :: 0 <= i < |rows| ==> NormalizeHistory(rows, now, parse)[i] == NormalizeRow(rows[i], now, parse)
  {
    if rows != [] {
      NormalizeHistoryOneToOne(rows[1..], now, parse);
    }
  }

  predicate AscendingRowIds(rows: seq<HistoryRow>) {
    forall i, j :: 0 <= i < j < |rows| ==> rows[i].id < rows[j].id
  }

  predicate AscendingTurnIds(turns: seq<Turn>) {
    forall i, j :: 0 <= i < j < |turns| ==> turns[i].id < turns[j].id
  }

  /** History fetched in ascending id order stays in that order, whatever the timestamps. */
  lemma HistoryKeepsIdOrder(rows: seq<HistoryRow>, now: int, parse: Parser)
    requires ParsesObjects(parse)
    requires AscendingRowIds(rows)
    ensures AscendingTurnIds(NormalizeHistory(rows, now, parse))
  {
    NormalizeHistoryOneToOne(rows, now, parse);
  }

  /** A turn the page draws: content that is neither empty nor white space only. */
  predicate Shown(t: Turn) {
    Trim(t.content) != ""
  }

  /** `messages.filter(msg => msg.content && msg.content.trim() !== '')` */
  function RenderFilter(turns: seq<Turn>): seq<Turn> {
    Filter(turns, Shown)
  }

  /**
   * The rendered transcript holds exactly the shown turns, keeps their
   * relative order, and drops every suppressed or blank turn.
   */
  lemma RenderFilterSpec(a: seq<Turn>, b: seq<Turn>, t: Turn)
    ensures RenderFilter(a + b) == RenderFilter(a) + RenderFilter(b)
    ensures RenderFilter([t]) == if Shown(t) then [t] else []
    ensures forall x :: x in RenderFilter(a) <==> x in a && Trim(x.content) != ""
  {
    FilterAppend(a, b, Shown);
    FilterMembers(a, Shown);
    FilterOne(t, Shown);
  }

  /** A blank turn between others disappears and leaves its neighbours as they were. */
  lemma BlankTurnDropped(a: seq<Turn>, b: seq<Turn>, t: Turn)
    requires !Shown(t)
    ensures RenderFilter(a + [t] + b) == RenderFilter(a) + RenderFilter(b)
  {
    FilterAppend(a + [t], b, Shown);
    FilterAppend(a, [t], Shown);
    FilterOne(t, Shown);
  }

  /** Blank content is exactly content made of white space only. */
  lemma ShownIff(t: Turn)
    ensures Shown(t) <==> exists i :: 0 <= i < |t.content| && !IsSpace(t.content[i])
  {
    TrimEmptyIff(t.content);
  }

  /** A turn whose payload the classifier flags is never drawn. */
  lemma RoutingRowNeverShown(row: HistoryRow, now: int, parse: Parser)
    requires ParsesObjects(parse)
    requires IsRouting(row.message)
    ensures !Shown(NormalizeRow(row, now, parse))
  {
  }

  /** Two turns count as the same message: same content, less than 10 s apart. */
  predicate SameMessage(old_: Turn, incoming: Turn) {
    old_.content == incoming.content
    && (if old_.createdAt >= incoming.createdAt then old_.createdAt - incoming.createdAt
        else incoming.createdAt - old_.createdAt) < 10000
  }

  /** `prev.some(...)` over the whole transcript. */
  predicate IsDuplicate(prev: seq<Turn>, incoming: Turn)
    ensures IsDuplicate(prev, incoming) ==> exists i :: 0 <= i < |prev| && prev[i].content == incoming.content
  {
    exists i :: 0 <= i < |prev| && SameMessage(prev[i], incoming)
  }

  /** A duplicate anywhere in the transcript counts, before or after any point. */
  lemma IsDuplicateAppend(prev: seq<Turn>, more: seq<Turn>, incoming: Turn)
    ensures IsDuplicate(prev + more, incoming) <==> IsDuplicate(prev, incoming) || IsDuplicate(more, incoming)
    ensures !IsDuplicate([], incoming)
  {
    if IsDuplicate(prev, incoming) {
      var i :| 0 <= i < |prev| && SameMessage(prev[i], incoming);
      assert (prev + more)[i] == prev[i];
    }
    if IsDuplicate(more, incoming) {
      var i :| 0 <= i < |more| && SameMessage(more[i], incoming);
      assert (prev + more)[|prev| + i] == more[i];
    }
    if IsDuplicate(prev + more, incoming) {
      var i :| 0 <= i < |prev + more| && SameMessage((prev + more)[i], incoming);
      if i >= |prev| {
        assert more[i - |prev|] == (prev + more)[i];
      } else {
        assert prev[i] == (prev + more)[i];
      }
    }
  }

  /** The realtime update `setMessages(prev => ...)`. */
  function AppendPushed(prev: seq<Turn>, incoming: Turn): (r: seq<Turn>)
    ensures r == prev || r == prev + [incoming]
    ensures r == prev <==> IsDuplicate(prev, incoming)
  {
    if IsDuplicate(prev, incoming) then prev else prev + [incoming]
  }

  /**
   * A turn is suppressed at 5 s from a turn with the same content and appended
   * at 15 s, or at exactly 10 s: the window is strict.
   */
  lemma DuplicateWindow(t: Turn, incoming: Turn)
    requires incoming.content == t.content
    ensures incoming.createdAt == t.createdAt + 5000 ==> AppendPushed([t], incoming) == [t]
    ensures incoming.createdAt == t.createdAt + 10000 ==> AppendPushed([t], incoming) == [t, incoming]
    ensures incoming.createdAt == t.createdAt + 15000 ==> AppendPushed([t], incoming) == [t, incoming]
  {
    if incoming.createdAt == t.createdAt + 5000 {
      assert SameMessage([t][0], incoming);
    }
  }

  /**
   * The optimistic echo of a sent message absorbs the realtime insert of the
   * same text arriving within 10 s of it.
   */
  lemma EchoAbsorbsPush(prev: seq<Turn>, echo: Turn, row: HistoryRow, now: int, parse: Parser)
    requires ParsesObjects(parse)
    requires CleanMessage(row.message, parse) == echo.content
    requires row.createdAt.Some?
    requires -10000 < row.createdAt.value - echo.createdAt < 10000
    ensures AppendPushed(prev + [echo], NormalizeRow(row, now, parse)) == prev + [echo]
  {
    var incoming := NormalizeRow(row, now, parse);
    assert SameMessage((prev + [echo])[|prev|], incoming);
  }

  // ---------------------------------------------------------------------------
  // Leads
  // ---------------------------------------------------------------------------

  /** The `urgente` column: a boolean, text, or nothing. */
  datatype Flag = FlagBool(b: bool) | FlagText(text: string) | FlagNull

  /** A `dados_cliente` row; absent text columns are `""`. */
  datatype ClientRow = ClientRow(sessionId: string, nome: string, telefone: string, atendimento: string, urgente: Flag)

  datatype Lead = Lead(sessionId: string, name: string, phone: string, lastMessage: string,
                       lastTime: string, agentPaused: bool, urgent: bool, unread: nat)

  /** `client.nome || \`Cliente ${client.sessionid?.slice(-4) || '????'}\`` */
  function LeadName(client: ClientRow): (name: string)
    ensures name != ""
    ensures name == client.nome || (client.nome == "" && StartsWith(name, "Cliente "))
  {
    if client.nome != "" then client.nome
    else "Cliente " + (if client.sessionId != "" then SliceLast(client.sessionId, 4) else "????")
  }

  /** The lead built from a client row and the payload of its latest message (Null when it has none). */
  function ProjectLead(client: ClientRow, lastPayload: Value, parse: Parser): (l: Lead)
    requires ParsesObjects(parse)
    ensures l.sessionId == client.sessionId
    ensures l.name == LeadName(client) && l.lastMessage != ""
    ensures client.telefone != "" ==> l.phone == client.telefone
    ensures client.telefone == "" ==> l.phone == client.sessionId
    ensures l.lastMessage == CleanMessage(lastPayload, parse) || l.lastMessage == "Iniciar conversa"
    ensures CleanMessage(lastPayload, parse) != "" ==> l.lastMessage == CleanMessage(lastPayload, parse)
    ensures l.agentPaused <==> client.atendimento == "human"
    ensures l.urgent <==> client.urgente == FlagBool(true) || client.urgente == FlagText("true")
    ensures l.lastTime == "" && l.unread == 0
  {
    var cleaned := CleanMessage(lastPayload, parse);
    Lead(client.sessionId,
         LeadName(client),
         if client.telefone != "" then client.telefone else client.sessionId,
         if cleaned != "" then cleaned else "Iniciar conversa",
         "",
         client.atendimento == "human",
         client.urgente == FlagBool(true) || client.urgente == FlagText("true"),
         0)
  }

  /** A fallback name shows the last four characters of the session id, or `????` for an empty id. */
  lemma FallbackName(client: ClientRow)
    requires client.nome == ""
    ensures client.sessionId == "" ==> LeadName(client) == "Cliente ????"
    ensures 0 < |client.sessionId| < 4 ==> LeadName(client) == "Cliente " + client.sessionId
    ensures |client.sessionId| >= 4 ==>
              LeadName(client) == "Cliente " + client.sessionId[|client.sessionId| - 4..]
  {
  }

  function ProjectLeads(rows: seq<(ClientRow, Value)>, parse: Parser): (r: seq<Lead>)
    requires ParsesObjects(parse)
    ensures |r| == |rows|
    ensures forall i :: 0 <= i < |rows| ==> r[i] == ProjectLead(rows[i].0, rows[i].1, parse)
  {
    seq(|rows|, i requires 0 <= i < |rows| => ProjectLead(rows[i].0, rows[i].1, parse))
  }

  /** `leads.find(l => l.session_id === id)` */
  function FindLead(leads: seq<Lead>, id: string): (r: Option<Lead>)
    ensures r.Some? ==> r.value in leads && r.value.sessionId == id
    ensures r.Some? ==> exists i :: 0 <= i < |leads| && leads[i] == r.value
                                    && forall j :: 0 <= j < i ==> leads[j].sessionId != id
    ensures r.None? <==> forall i :: 0 <= i < |leads| ==> leads[i].sessionId != id
  {
    if leads == [] then None
    else if leads[0].sessionId == id then Some(leads[0])
    else
      var r := FindLead(leads[1..], id);
      if r.Some? then
        ghost var i :| 0 <= i < |leads[1..]| && leads[1..][i] == r.value
                       && forall j :: 0 <= j < i ==> leads[1..][j].sessionId != id;
        assert leads[i + 1] == r.value;
        assert forall j :: 0 <= j < i + 1 ==> leads[j].sessionId != id by {
          forall j | 0 <= j < i + 1 ensures leads[j].sessionId != id {
            if j > 0 {
              assert leads[j] == leads[1..][j - 1];
            }
          }
        }
        r
      else r
  }

  /** The optimistic update of `togglePause`: every lead with that id gets `agent_paused = !current`. */
  function SetPaused(leads: seq<Lead>, id: string, current: bool): (r: seq<Lead>)
    ensures |r| == |leads|
  {
    if leads == [] then []
    else [if leads[0].sessionId == id then leads[0].(agentPaused := !current) else leads[0]]
         + SetPaused(leads[1..], id, current)
  }

  /** Only the matching lead changes, and of it only `agent_paused`; order and length stay. */
  lemma {:induction false} SetPausedSpec(leads: seq<Lead>, id: string, current: bool)
    ensures |SetPaused(leads, id, current)| == |leads|
    ensures forall i :: 0 <= i < |leads| && leads[i].sessionId == id ==>
              SetPaused(leads, id, current)[i] == leads[i].(agentPaused := !current)
    ensures forall i :: 0 <= i < |leads| && leads[i].sessionId != id ==>
              SetPaused(leads, id, current)[i] == leads[i]
  {
    if leads != [] {
      SetPausedSpec(leads[1..], id, current);
    }
  }

  predicate KeepOther(id: string, l: Lead) {
    l.sessionId != id
  }

  /** `prev.filter(l => l.session_id !== selectedLeadId)` */
  function RemoveLead(leads: seq<Lead>, id: string): (r: seq<Lead>)
    ensures |r| <= |leads|
    ensures forall l :: l in r ==> l in leads && l.sessionId != id
  {
    FilterMembers(leads, l => KeepOther(id, l));
    Filter(leads, l => KeepOther(id, l))
  }

  /** Deleting removes every lead with that id and keeps the others, unchanged and in order. */
  lemma RemoveLeadSpec(a: seq<Lead>, b: seq<Lead>, id: string)
    ensures forall l :: l in RemoveLead(a, id) <==> l in a && l.sessionId != id
    ensures RemoveLead(a + b, id) == RemoveLead(a, id) + RemoveLead(b, id)
    ensures (forall i :: 0 <= i < |a| ==> a[i].sessionId != id) ==> RemoveLead(a, id) == a
  {
    FilterMembers(a, l => KeepOther(id, l));
    FilterAppend(a, b, l => KeepOther(id, l));
    FilterAll(a, l => KeepOther(id, l));
  }

  datatype Tab = Todos | Urgentes

  predicate IsUrgent(l: Lead) {
    l.urgent
  }

  /** `leads.filter(l => l.urgent)` */
  function UrgentLeads(leads: seq<Lead>): (r: seq<Lead>)
    ensures |r| <= |leads|
    ensures forall l :: l in r <==> l in leads && l.urgent
  {
    FilterMembers(leads, IsUrgent);
    Filter(leads, IsUrgent)
  }

  /** `leads.filter(lead => activeTab === 'todos' || lead.urgent)` */
  function VisibleLeads(leads: seq<Lead>, tab: Tab): (r: seq<Lead>)
    ensures |r| <= |leads|
    ensures forall l :: l in r ==> l in leads
    ensures tab == Urgentes ==> forall l :: l in r ==> l.urgent
  {
    if tab == Todos then leads else UrgentLeads(leads)
  }

  /** Pausing and unpausing leave urgency alone, so the urgent tab shows the same update in place. */
  lemma {:induction false} UrgentLeadsSetPaused(leads: seq<Lead>, id: string, current: bool)
    ensures UrgentLeads(SetPaused(leads, id, current)) == SetPaused(UrgentLeads(leads), id, current)
  {
    if leads != [] {
      var h := leads[0];
      var h' := if h.sessionId == id then h.(agentPaused := !current) else h;
      var rest := SetPaused(leads[1..], id, current);
      assert SetPaused(leads, id, current) == [h'] + rest;
      FilterAppend([h'], rest, IsUrgent);
      FilterOne(h', IsUrgent);
      assert UrgentLeads(leads) == (if h.urgent then [h] else []) + UrgentLeads(leads[1..]);
      UrgentLeadsSetPaused(leads[1..], id, current);
      if h.urgent {
        assert ([h] + UrgentLeads(leads[1..]))[1..] == UrgentLeads(leads[1..]);
      } else {
        assert [] + UrgentLeads(leads[1..]) == UrgentLeads(leads[1..]);
      }
    }
  }

  /** Deleting a lead and then choosing the tab gives the same list as the other way round. */
  lemma VisibleRemoveLead(leads: seq<Lead>, tab: Tab, id: string)
    ensures VisibleLeads(RemoveLead(leads, id), tab) == RemoveLead(VisibleLeads(leads, tab), id)
  {
    FilterCommute(leads, l => KeepOther(id, l), IsUrgent);
  }

  /** Deleting a lead never raises the urgent count. */
  lemma UrgentCountAfterRemove(leads: seq<Lead>, id: string)
    ensures |UrgentLeads(RemoveLead(leads, id))| <= |UrgentLeads(leads)|
  {
    VisibleRemoveLead(leads, Urgentes, id);
  }

  /** What the lead list and the badge show after a deletion. */
  lemma DeletedViews(leads: seq<Lead>, tab: Tab, id: string)
    ensures VisibleLeads(RemoveLead(leads, id), tab) == RemoveLead(VisibleLeads(leads, tab), id)
    ensures |UrgentLeads(RemoveLead(leads, id))| <= |UrgentLeads(leads)|
  {
    VisibleRemoveLead(leads, tab, id);
    UrgentCountAfterRemove(leads, id);
  }

  /** The optimistic pause shows up in the visible list in place. */
  lemma VisibleSetPaused(leads: seq<Lead>, tab: Tab, id: string, current: bool)
    ensures VisibleLeads(SetPaused(leads, id, current), tab) == SetPaused(VisibleLeads(leads, tab), id, current)
  {
    UrgentLeadsSetPaused(leads, id, current);
  }

  /** The turn `sendMessage` appends is always drawn. */
  lemma SentTextShown(turns: seq<Turn>, input: string, now: int)
    requires Trim(input) != ""
    ensures RenderFilter(turns + [Turn(now, Assistant, Trim(input), now)])
            == RenderFilter(turns) + [Turn(now, Assistant, Trim(input), now)]
  {
    TrimIdempotent(input);
    RenderAppendShown(turns, Turn(now, Assistant, Trim(input), now));
  }

  /** A turn whose content is already trimmed text is appended to what the transcript draws. */
  lemma RenderAppendShown(turns: seq<Turn>, t: Turn)
    requires Shown(t)
    ensures RenderFilter(turns + [t]) == RenderFilter(turns) + [t]
  {
    FilterAppend(turns, [t], Shown);
    FilterOne(t, Shown);
  }

  /**
   * The `todos` tab shows every lead; the `urgentes` tab shows exactly the
   * urgent ones in list order, and the badge counts what that tab shows.
   */
  lemma VisibleLeadsSpec(leads: seq<Lead>, more: seq<Lead>)
    ensures VisibleLeads(leads, Todos) == leads
    ensures forall l :: l in VisibleLeads(leads, Urgentes) <==> l in leads && l.urgent
    ensures VisibleLeads(leads + more, Urgentes) == VisibleLeads(leads, Urgentes) + VisibleLeads(more, Urgentes)
    ensures |VisibleLeads(leads, Urgentes)| <= |leads|
  {
    FilterMembers(leads, IsUrgent);
    FilterAppend(leads, more, IsUrgent);
  }

  // ---------------------------------------------------------------------------
  // Webhook bodies
  // ---------------------------------------------------------------------------

  datatype PauseRequest = PauseRequest(sessionId: string, clienteNome: string, telefone: string,
                                       atendimento: string, action: string)
  datatype DeleteRequest = DeleteRequest(sessionId: string, clienteNome: string, telefone: string)
  datatype SendRequest = SendRequest(sessionId: string, clienteNome: string, message: string)

  /** `!current ? 'human' : 'ia'` and `!current ? 'pause' : 'resume'`. */
  function PauseBody(id: string, lead: Option<Lead>, current: bool): (r: PauseRequest)
    ensures r.sessionId == id
    ensures r.atendimento == (if current then "ia" else "human")
    ensures r.action == (if current then "resume" else "pause")
    ensures lead.None? ==> r.clienteNome == "" && r.telefone == ""
    ensures lead.Some? ==> r.clienteNome == lead.value.name && r.telefone == lead.value.phone
  {
    PauseRequest(id,
                 match lead case Some(l) => l.name case None => "",
                 match lead case Some(l) => l.phone case None => "",
                 if !current then "human" else "ia",
                 if !current then "pause" else "resume")
  }

  /** A selection is truthy only when it names a non-empty id. */
  predicate Selected(id: Option<string>) {
    id.Some? && id.value != ""
  }

  // ---------------------------------------------------------------------------
  // The page state
  // ---------------------------------------------------------------------------

  class Board {
    var leads: seq<Lead>
    var selectedLeadId: Option<string>
    var messages: seq<Turn>
    var msgInput: string
    var activeTab: Tab
    var loading: bool

    constructor ()
      ensures leads == [] && selectedLeadId == None && messages == []
      ensures msgInput == "" && activeTab == Todos && loading
    {
      leads := [];
      selectedLeadId := None;
      messages := [];
      msgInput := "";
      activeTab := Todos;
      loading := true;
    }

    /** `leads.find(l => l.session_id === selectedLeadId)` */
    function SelectedLead(): (r: Option<Lead>)
      reads this
      ensures r.Some? ==> r.value in leads && selectedLeadId == Some(r.value.sessionId)
      ensures r.None? ==> selectedLeadId.None? || forall i :: 0 <= i < |leads| ==> leads[i].sessionId != selectedLeadId.value
    {
      match selectedLeadId
      case Some(id) => FindLead(leads, id)
      case None => None
    }

    /** What the lead list draws under the active tab. */
    function Visible(): seq<Lead>
      reads this
    {
      VisibleLeads(leads, activeTab)
    }

    /** The number on the `urgentes` badge. */
    function UrgentCount(): nat
      reads this
    {
      |UrgentLeads(leads)|
    }

    /**
     * The end of `fetchLeads`: a successful read replaces the list and selects
     * its first lead when nothing is selected; a failed read keeps the list.
     * Either way loading ends.
     */
    method LoadLeads(fetched: Option<seq<(ClientRow, Value)>>, parse: Parser)
      requires ParsesObjects(parse)
      modifies this
      ensures !loading
      ensures fetched.None? ==> leads == old(leads) && selectedLeadId == old(selectedLeadId)
      ensures fetched.Some? ==> leads == ProjectLeads(fetched.value, parse)
      ensures fetched.Some? && |fetched.value| > 0 && !Selected(old(selectedLeadId)) ==>
                selectedLeadId == Some(leads[0].sessionId)
      ensures !(fetched.Some? && |fetched.value| > 0 && !Selected(old(selectedLeadId))) ==>
                selectedLeadId == old(selectedLeadId)
      ensures messages == old(messages) && msgInput == old(msgInput) && activeTab == old(activeTab)
    {
      if fetched.Some? {
        var loaded := ProjectLeads(fetched.value, parse);
        leads := loaded;
        if |loaded| > 0 && !Selected(selectedLeadId) {
          selectedLeadId := Some(loaded[0].sessionId);
        }
      }
      loading := false;
    }

    /** `handleSelectLead`: the transcript stays until the new history arrives. */
    method SelectLead(id: string)
      modifies this
      ensures selectedLeadId == Some(id)
      ensures leads == old(leads) && messages == old(messages)
      ensures msgInput == old(msgInput) && activeTab == old(activeTab) && loading == old(loading)
    {
      selectedLeadId := Some(id);
    }

    method SetTab(tab: Tab)
      modifies this
      ensures activeTab == tab
      ensures leads == old(leads) && selectedLeadId == old(selectedLeadId) && messages == old(messages)
      ensures msgInput == old(msgInput) && loading == old(loading)
    {
      activeTab := tab;
    }

    method SetInput(text: string)
      modifies this
      ensures msgInput == text
      ensures leads == old(leads) && selectedLeadId == old(selectedLeadId) && messages == old(messages)
      ensures activeTab == old(activeTab) && loading == old(loading)
    {
      msgInput := text;
    }

    /** `fetchHistory`: a successful read replaces the transcript, one turn per row; a failed one keeps it. */
    method LoadHistory(fetched: Option<seq<HistoryRow>>, now: int, parse: Parser)
      requires ParsesObjects(parse)
      modifies this
      ensures fetched.Some? ==> messages == NormalizeHistory(fetched.value, now, parse)
      ensures fetched.None? ==> messages == old(messages)
      ensures leads == old(leads) && selectedLeadId == old(selectedLeadId)
      ensures msgInput == old(msgInput) && activeTab == old(activeTab) && loading == old(loading)
    {
      if fetched.Some? {
        messages := NormalizeHistory(fetched.value, now, parse);
      }
    }

    /**
     * The realtime INSERT handler: the pushed row is appended unless some turn
     * already holds the same content less than 10 s from it.
     */
    method ReceivePush(row: HistoryRow, now: int, parse: Parser)
      requires ParsesObjects(parse)
      modifies this
      ensures var incoming := NormalizeRow(row, now, parse);
              if IsDuplicate(old(messages), incoming) then messages == old(messages)
              else messages == old(messages) + [incoming]
      ensures leads == old(leads) && selectedLeadId == old(selectedLeadId)
      ensures msgInput == old(msgInput) && activeTab == old(activeTab) && loading == old(loading)
    {
      messages := AppendPushed(messages, NormalizeRow(row, now, parse));
    }

    /**
     * `togglePause(id, current)`: nothing for an empty id; otherwise the
     * optimistic update of the list and the body posted to the webhook, whose
     * outcome changes nothing.
     */
    method TogglePause(id: string, current: bool) returns (request: Option<PauseRequest>)
      modifies this
      ensures id == "" ==> request.None? && leads == old(leads)
      ensures id != "" ==> leads == SetPaused(old(leads), id, current)
                           && request == Some(PauseBody(id, FindLead(old(leads), id), current))
      ensures id != "" ==> Visible() == SetPaused(old(Visible()), id, current)
      ensures UrgentCount() == old(UrgentCount())
      ensures selectedLeadId == old(selectedLeadId) && messages == old(messages)
      ensures msgInput == old(msgInput) && activeTab == old(activeTab) && loading == old(loading)
    {
      if id == "" {
        return None;
      }
      var lead := FindLead(leads, id);
      VisibleSetPaused(leads, activeTab, id, current);
      UrgentLeadsSetPaused(leads, id, current);
      leads := SetPaused(leads, id, current);
      request := Some(PauseBody(id, lead, current));
    }

    /**
     * `deleteLead`: needs a selected lead that is in the list; the local state
     * changes only when the webhook answered `ok`.
     */
    method DeleteLead(ok: bool) returns (request: Option<DeleteRequest>)
      modifies this
      ensures !Selected(old(selectedLeadId)) || old(SelectedLead()).None? ==>
                request.None? && leads == old(leads) && selectedLeadId == old(selectedLeadId)
                && messages == old(messages)
      ensures Selected(old(selectedLeadId)) && old(SelectedLead()).Some? ==>
                request == Some(DeleteRequest(old(selectedLeadId).value, old(SelectedLead()).value.name,
                                              old(SelectedLead()).value.phone))
      ensures Selected(old(selectedLeadId)) && old(SelectedLead()).Some? && ok ==>
                leads == RemoveLead(old(leads), old(selectedLeadId).value)
                && selectedLeadId == None && messages == []
      ensures UrgentCount() <= old(UrgentCount())
      ensures Selected(old(selectedLeadId)) && old(SelectedLead()).Some? && !ok ==>
                leads == old(leads) && selectedLeadId == old(selectedLeadId) && messages == old(messages)
      ensures msgInput == old(msgInput) && activeTab == old(activeTab) && loading == old(loading)
    {
      var lead := SelectedLead();
      if !Selected(selectedLeadId) || lead.None? {
        return None;
      }
      var id := selectedLeadId.value;
      request := Some(DeleteRequest(id, lead.value.name, lead.value.phone));
      if ok {
        UrgentCountAfterRemove(leads, id);
        leads := RemoveLead(leads, id);
        selectedLeadId := None;
        messages := [];
      }
    }

    /**
     * `sendMessage`: with non-blank input and a selection, appends the trimmed
     * text as an assistant turn stamped `now`, clears the input and yields the
     * webhook body; otherwise changes nothing.
     */
    method SendMessage(now: int) returns (request: Option<SendRequest>)
      modifies this
      ensures Trim(old(msgInput)) == "" || !Selected(old(selectedLeadId)) ==>
                request.None? && messages == old(messages) && msgInput == old(msgInput)
      ensures Trim(old(msgInput)) != "" && Selected(old(selectedLeadId)) ==>
                messages == old(messages) + [Turn(now, Assistant, Trim(old(msgInput)), now)]
                && msgInput == ""
                && request == Some(SendRequest(old(selectedLeadId).value,
                                               match old(SelectedLead()) case Some(l) => l.name case None => "",
                                               Trim(old(msgInput))))
      ensures leads == old(leads) && selectedLeadId == old(selectedLeadId)
      ensures activeTab == old(activeTab) && loading == old(loading)
    {
      var text := Trim(msgInput);
      if text == "" || !Selected(selectedLeadId) {
        return None;
      }
      var lead := SelectedLead();
      var turn := Turn(now, Assistant, text, now);
      messages := messages + [turn];
      msgInput := "";
      request := Some(SendRequest(selectedLeadId.value,
                                  match lead case Some(l) => l.name case None => "",
                                  text));
    }
  }
}
