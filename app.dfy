/** The in-memory error store of the application component: the ordered list of
    accounting-error records (most recent first) and the selected record, the handlers
    that replace them, and the two views derived from the list (dashboard counters and
    the text search). Clock, randomness and the AI service are parameters. */
module App {
  import opened Wrappers
  import opened Types
  import opened Decimal
  import opened Text
  import opened GeminiService

  // ---------------------------------------------------------------------------
  // Dashboard counters
  // ---------------------------------------------------------------------------

  /** `rs.filter(e => e.status === s).length`. */
  function CountStatus(rs: seq<Record>, s: Status): (n: nat)
    ensures n <= |rs|
  {
    if rs == [] then 0 else (if rs[0].status == s then 1 else 0) + CountStatus(rs[1..], s)
  }

  /** The dashboard's counters over the whole list. */
  function ComputeStats(rs: seq<Record>): DashboardStats
  {
    DashboardStats(|rs|, CountStatus(rs, Pending), CountStatus(rs, Processing), CountStatus(rs, Fixed))
  }

  /** Every record has exactly one of the four statuses, so the four counts add up
      to the length of the list. */
  lemma {:induction false} CountPartition(rs: seq<Record>)
    ensures CountStatus(rs, Pending) + CountStatus(rs, Processing) + CountStatus(rs, Fixed)
            + CountStatus(rs, Rejected) == |rs|
  {
    if rs != [] {
      CountPartition(rs[1..]);
    }
  }

  /** A status is counted zero times exactly when no record has it. */
  lemma {:induction false} CountZeroIff(rs: seq<Record>, s: Status)
    ensures CountStatus(rs, s) == 0 <==> forall i | 0 <= i < |rs| :: rs[i].status != s
  {
    if rs != [] {
      CountZeroIff(rs[1..], s);
      assert forall i | 1 <= i < |rs| :: rs[i] == rs[1..][i - 1];
    }
  }

  /** `total` is the number of records, `pending + processing + fixed` never exceeds it,
      and the two are equal exactly when no record is REJECTED (there is no counter
      for rejected records). */
  lemma StatsAccountForEveryRecord(rs: seq<Record>)
    ensures ComputeStats(rs).total == |rs|
    ensures ComputeStats(rs).pending + ComputeStats(rs).processing + ComputeStats(rs).fixed
            + CountStatus(rs, Rejected) == ComputeStats(rs).total
    ensures ComputeStats(rs).pending + ComputeStats(rs).processing + ComputeStats(rs).fixed
            <= ComputeStats(rs).total
    ensures (ComputeStats(rs).pending + ComputeStats(rs).processing + ComputeStats(rs).fixed
             == ComputeStats(rs).total) <==> forall i | 0 <= i < |rs| :: rs[i].status != Rejected
  {
    CountPartition(rs);
    CountZeroIff(rs, Rejected);
  }

  /** Changing the status of one position, and nothing else about statuses, changes each
      count by what that one record contributes before and after. */
  lemma {:induction false} CountAfterOneChange(rs: seq<Record>, rs': seq<Record>, k: nat, s: Status)
    requires |rs| == |rs'| && k < |rs|
    requires forall i | 0 <= i < |rs| && i != k :: rs'[i].status == rs[i].status
    ensures CountStatus(rs', s) + (if rs[k].status == s then 1 else 0)
            == CountStatus(rs, s) + (if rs'[k].status == s then 1 else 0)
  {
    if k == 0 {
      CountsAgree(rs[1..], rs'[1..], s);
    } else {
      CountAfterOneChange(rs[1..], rs'[1..], k - 1, s);
    }
  }

  /** Lists with the same statuses position by position have the same counts. */
  lemma {:induction false} CountsAgree(rs: seq<Record>, rs': seq<Record>, s: Status)
    requires |rs| == |rs'|
    requires forall i | 0 <= i < |rs| :: rs'[i].status == rs[i].status
    ensures CountStatus(rs', s) == CountStatus(rs, s)
  {
    if rs != [] {
      CountsAgree(rs[1..], rs'[1..], s);
    }
  }

  // ---------------------------------------------------------------------------
  // Text search
  // ---------------------------------------------------------------------------

  /** The search predicate: the lower-cased query is included in the lower-cased title
      or in the lower-cased description. `lower` stands for `toLowerCase`. */
  predicate Matches(r: Record, query: string, lower: string -> string)
  {
    Contains(lower(r.title), lower(query)) || Contains(lower(r.description), lower(query))
  }

  /** `errors.filter(...)` with the search predicate. */
  function FilterErrors(rs: seq<Record>, query: string, lower: string -> string): (out: seq<Record>)
    ensures |out| <= |rs|
  {
    if rs == [] then []
    else if Matches(rs[0], query, lower) then [rs[0]] + FilterErrors(rs[1..], query, lower)
    else FilterErrors(rs[1..], query, lower)
  }

  /** `a` is `b` with some elements left out, the others in their order. */
  predicate IsSubsequence(a: seq<Record>, b: seq<Record>)
  {
    if a == [] then true
    else if b == [] then false
    else (a[0] == b[0] && IsSubsequence(a[1..], b[1..])) || IsSubsequence(a, b[1..])
  }

  /** The search result keeps the records in their list order. */
  lemma {:induction false} FilterIsSubsequence(rs: seq<Record>, query: string, lower: string -> string)
    ensures IsSubsequence(FilterErrors(rs, query, lower), rs)
  {
    if rs != [] {
      FilterIsSubsequence(rs[1..], query, lower);
      var out := FilterErrors(rs, query, lower);
      if Matches(rs[0], query, lower) {
        assert out[0] == rs[0] && out[1..] == FilterErrors(rs[1..], query, lower);
      }
    }
  }

  /** A record is in the search result exactly when it is in the list and matches. */
  lemma {:induction false} FilterMembership(rs: seq<Record>, query: string, lower: string -> string, x: Record)
    ensures x in FilterErrors(rs, query, lower) <==> x in rs && Matches(x, query, lower)
  {
    if rs != [] {
      FilterMembership(rs[1..], query, lower, x);
      assert x in rs <==> x == rs[0] || x in rs[1..];
    }
  }

  /** The match spelled out: an occurrence of the lower-cased query in the lower-cased
      title or description. */
  lemma MatchesIffOccurs(r: Record, query: string, lower: string -> string)
    ensures Matches(r, query, lower) <==>
      (exists i :: OccursAt(lower(r.title), lower(query), i))
      || (exists i :: OccursAt(lower(r.description), lower(query), i))
  {
    ContainsIffOccurs(lower(r.title), lower(query));
    ContainsIffOccurs(lower(r.description), lower(query));
  }

  /** The empty query keeps every record in list order (`"".toLowerCase()` is `""`). */
  lemma {:induction false} FilterEmptyQueryKeepsAll(rs: seq<Record>, lower: string -> string)
    requires lower("") == ""
    ensures FilterErrors(rs, "", lower) == rs
  {
    if rs != [] {
      ContainsEmpty(lower(rs[0].title));
      FilterEmptyQueryKeepsAll(rs[1..], lower);
    }
  }

  /** Queries that lower-case alike give the same result, whatever their casing. */
  lemma {:induction false} FilterIgnoresQueryCase(rs: seq<Record>, q1: string, q2: string, lower: string -> string)
    requires lower(q1) == lower(q2)
    ensures FilterErrors(rs, q1, lower) == FilterErrors(rs, q2, lower)
  {
    if rs != [] {
      FilterIgnoresQueryCase(rs[1..], q1, q2, lower);
    }
  }

  /** Searching a search result again with the same query changes nothing. */
  lemma {:induction false} FilterIdempotent(rs: seq<Record>, query: string, lower: string -> string)
    ensures FilterErrors(FilterErrors(rs, query, lower), query, lower) == FilterErrors(rs, query, lower)
  {
    if rs != [] {
      FilterIdempotent(rs[1..], query, lower);
      var tail := FilterErrors(rs[1..], query, lower);
      if Matches(rs[0], query, lower) {
        assert ([rs[0]] + tail)[1..] == tail;
      }
    }
  }

  // ---------------------------------------------------------------------------
  // Identifiers
  // ---------------------------------------------------------------------------

  function IdSet(rs: seq<Record>): set<string>
  {
    set i | 0 <= i < |rs| :: rs[i].id
  }

  /** The strings "1", ..., n. */
  function IdRange(n: nat): set<string>
  {
    set k | 1 <= k <= n :: NatToString(k)
  }

  predicate DistinctIds(rs: seq<Record>)
  {
    forall i, j | 0 <= i < j < |rs| :: rs[i].id != rs[j].id
  }

  /** The identifier invariant of the store: ids are pairwise distinct and are exactly
      the decimal strings of 1 to the number of records. */
  ghost predicate IdsOneToN(rs: seq<Record>)
  {
    DistinctIds(rs) && IdSet(rs) == IdRange(|rs|)
  }

  /** The string the next created record gets as its id, `(length + 1).toString()`. */
  function NextId(rs: seq<Record>): string
  {
    NatToString(|rs| + 1)
  }

  /** The next id is not yet taken, so prepending a record carrying it keeps the
      identifier invariant. */
  lemma PrependNextIdKeepsIds(rs: seq<Record>, r: Record)
    requires IdsOneToN(rs)
    requires r.id == NextId(rs)
    ensures IdsOneToN([r] + rs)
  {
    var n := |rs|;
    var rs' := [r] + rs;
    forall k | 1 <= k <= n
      ensures NatToString(k) != r.id
    {
      NatToStringInjective(k, n + 1);
    }
    assert r.id !in IdRange(n);
    assert r.id !in IdSet(rs);
    forall i, j | 0 <= i < j < |rs'|
      ensures rs'[i].id != rs'[j].id
    {
      if i == 0 {
        assert rs'[j].id == rs[j - 1].id;
        assert rs[j - 1].id in IdSet(rs);
      } else {
        assert rs'[i] == rs[i - 1] && rs'[j] == rs[j - 1];
      }
    }
    assert IdSet(rs') == {r.id} + IdSet(rs) by {
      forall x | x in IdSet(rs') ensures x in {r.id} + IdSet(rs) {
        var i :| 0 <= i < |rs'| && rs'[i].id == x;
        if i > 0 { assert rs[i - 1].id == x; }
      }
      forall x | x in IdSet(rs) ensures x in IdSet(rs') {
        var i :| 0 <= i < |rs| && rs[i].id == x;
        assert rs'[i + 1].id == x;
      }
      assert rs'[0].id == r.id;
    }
    assert IdRange(n + 1) == {r.id} + IdRange(n) by {
      forall x | x in IdRange(n + 1) ensures x in {r.id} + IdRange(n) {
        var k :| 1 <= k <= n + 1 && NatToString(k) == x;
      }
      assert NatToString(n + 1) in IdRange(n + 1);
    }
  }

  /** Lists with the same ids position by position satisfy the identifier invariant
      together. */
  lemma SameIdsKeepIds(rs: seq<Record>, rs': seq<Record>)
    requires |rs| == |rs'|
    requires forall i | 0 <= i < |rs| :: rs'[i].id == rs[i].id
    ensures IdSet(rs') == IdSet(rs)
    ensures IdsOneToN(rs) ==> IdsOneToN(rs')
  {
    assert IdSet(rs') == IdSet(rs) by {
      forall x | x in IdSet(rs') ensures x in IdSet(rs) {
        var i :| 0 <= i < |rs'| && rs'[i].id == x;
        assert rs[i].id == x;
      }
      forall x | x in IdSet(rs) ensures x in IdSet(rs') {
        var i :| 0 <= i < |rs| && rs[i].id == x;
        assert rs'[i].id == x;
      }
    }
  }

  // ---------------------------------------------------------------------------
  // Updating the records that carry an id
  // ---------------------------------------------------------------------------

  /** The three record updates the handlers apply to the records matching an id. */
  datatype Edit = SetStatus(status: Status) | SetSyncId(syncId: string) | Replace(record: Record)

  function Apply(e: Edit, r: Record): Record
  {
    match e
    case SetStatus(s) => r.(status := s)
    case SetSyncId(x) => r.(msDynamicsId := Some(x))
    case Replace(r') => r'
  }

  /** `rs.map(r => r.id === id ? <edit of r> : r)`. */
  function UpdateWhere(rs: seq<Record>, id: string, e: Edit): seq<Record>
  {
    seq(|rs|, k requires 0 <= k < |rs| => if rs[k].id == id then Apply(e, rs[k]) else rs[k])
  }

  /** The loop behind every `map` of the handlers: rebuild the list position by
      position, applying the edit where the id matches. */
  method MapWhere(rs: seq<Record>, id: string, e: Edit) returns (out: seq<Record>)
    ensures out == UpdateWhere(rs, id, e)
  {
    out := [];
    var i := 0;
    while i < |rs|
      invariant 0 <= i <= |rs|
      invariant out == UpdateWhere(rs, id, e)[..i]
    {
      var r := rs[i];
      if r.id == id {
        r := Apply(e, r);
      }
      out := out + [r];
      i := i + 1;
    }
  }

  /** The length, the order and every record without the id are kept; an edit that
      keeps the id keeps every id. */
  lemma UpdateWhereFrame(rs: seq<Record>, id: string, e: Edit)
    requires e.Replace? ==> e.record.id == id
    ensures |UpdateWhere(rs, id, e)| == |rs|
    ensures forall k | 0 <= k < |rs| && rs[k].id != id :: UpdateWhere(rs, id, e)[k] == rs[k]
    ensures forall k | 0 <= k < |rs| :: UpdateWhere(rs, id, e)[k].id == rs[k].id
    ensures IdSet(UpdateWhere(rs, id, e)) == IdSet(rs)
    ensures IdsOneToN(rs) ==> IdsOneToN(UpdateWhere(rs, id, e))
  {
    SameIdsKeepIds(rs, UpdateWhere(rs, id, e));
  }

  /** With no record carrying the id, nothing changes. */
  lemma UpdateWhereNoMatch(rs: seq<Record>, id: string, e: Edit)
    requires id !in IdSet(rs)
    ensures UpdateWhere(rs, id, e) == rs
  {
    forall k | 0 <= k < |rs| ensures UpdateWhere(rs, id, e)[k] == rs[k] {
      assert rs[k].id in IdSet(rs);
    }
  }

  /** `updateStatus` changes the status of the records with the id and no other field of
      any record. */
  lemma SetStatusChangesOnlyStatus(rs: seq<Record>, id: string, s: Status)
    ensures |UpdateWhere(rs, id, SetStatus(s))| == |rs|
    ensures forall k | 0 <= k < |rs| ::
      UpdateWhere(rs, id, SetStatus(s))[k] == rs[k].(status := if rs[k].id == id then s else rs[k].status)
  {
  }

  /** The sync edit sets the ERP id of the records with the id and no other field of
      any record. */
  lemma SetSyncIdChangesOnlySyncId(rs: seq<Record>, id: string, x: string)
    ensures |UpdateWhere(rs, id, SetSyncId(x))| == |rs|
    ensures forall k | 0 <= k < |rs| ::
      UpdateWhere(rs, id, SetSyncId(x))[k]
        == rs[k].(msDynamicsId := if rs[k].id == id then Some(x) else rs[k].msDynamicsId)
  {
  }

  /** With distinct ids, moving the one record carrying `id` from PENDING to FIXED adds one
      to `fixed`, takes one from `pending` and keeps `total` and `processing`. */
  lemma PendingToFixedStats(rs: seq<Record>, id: string, k: nat)
    requires DistinctIds(rs)
    requires k < |rs| && rs[k].id == id && rs[k].status == Pending
    ensures ComputeStats(UpdateWhere(rs, id, SetStatus(Fixed))).total == ComputeStats(rs).total
    ensures ComputeStats(UpdateWhere(rs, id, SetStatus(Fixed))).pending + 1 == ComputeStats(rs).pending
    ensures ComputeStats(UpdateWhere(rs, id, SetStatus(Fixed))).processing == ComputeStats(rs).processing
    ensures ComputeStats(UpdateWhere(rs, id, SetStatus(Fixed))).fixed == ComputeStats(rs).fixed + 1
  {
    var rs' := UpdateWhere(rs, id, SetStatus(Fixed));
    assert forall i | 0 <= i < |rs| && i != k :: rs[i].id != id;
    CountAfterOneChange(rs, rs', k, Pending);
    CountAfterOneChange(rs, rs', k, Processing);
    CountAfterOneChange(rs, rs', k, Fixed);
  }

  // ---------------------------------------------------------------------------
  // Creating, syncing and chatting
  // ---------------------------------------------------------------------------

  /** The creation form's fields. `amount` is the raw text of the amount input. */
  datatype FormData = FormData(title: string, description: string, category: Category,
                               priority: Priority, amount: string, voucherNo: string)

  const Reporter: string := "Admin Web"

  /** `analysis.category || formData.category`: enumeration strings are never empty, so
      the form's value is never used. */
  function CategoryOr(analysis: Category, form: Category): (c: Category)
    ensures c == analysis
  {
    if CategoryValue(analysis) != "" then analysis else form
  }

  /** `analysis.priority || formData.priority`: the form's value is never used. */
  function PriorityOr(analysis: Priority, form: Priority): (p: Priority)
    ensures p == analysis
  {
    if PriorityValue(analysis) != "" then analysis else form
  }

  /** The synthetic ERP identifier, `MS-DYN-${n}` for the random draw `n`: the prefix
      followed by the decimal digits of the draw. */
  function SyncIdFor(n: nat): (x: string)
    ensures |x| > 7 && x[..7] == "MS-DYN-"
    ensures x[7..] == NatToString(n)
  {
    "MS-DYN-" + NatToString(n)
  }

  /** Distinct draws give distinct identifiers. */
  lemma SyncIdInjective(m: nat, n: nat)
    ensures SyncIdFor(m) == SyncIdFor(n) <==> m == n
  {
    NatToStringInjective(m, n);
    if SyncIdFor(m) == SyncIdFor(n) {
      assert SyncIdFor(m)[7..] == SyncIdFor(n)[7..];
    }
  }

  const BusyText: string := "Hệ thống AI đang bận, vui lòng thử lại."

  /** The text of the model's turn: the reply, or the busy text when the reply is falsy. */
  function ReplyText(reply: Option<string>): (t: string)
    ensures t != ""
    ensures Truthy(reply) ==> t == reply.value
    ensures !Truthy(reply) ==> t == BusyText
  {
    if Truthy(reply) then reply.value else BusyText
  }

  /** The outcome of `chatWithErrorContext`: it threw, or it gave a reply text the SDK may
      leave undefined. */
  datatype ChatOutcome = ChatFailed | ChatReplied(text: Option<string>)

  /** The record the chat handler writes back: the selected record with the user's turn
      and the model's turn appended to its history. */
  function WithTurns(sel: Record, input: string, reply: Option<string>): (r: Record)
    ensures HistoryOf(r) == HistoryOf(sel) + [ChatMessage(User, input), ChatMessage(Model, ReplyText(reply))]
    ensures r == sel.(chatHistory := r.chatHistory)
  {
    sel.(chatHistory := Some(HistoryOf(sel) + [ChatMessage(User, input), ChatMessage(Model, ReplyText(reply))]))
  }

  /** With distinct ids and the selected record equal to its list entry, a reply extends
      exactly that entry's history by the two turns and leaves every other record alone. */
  lemma ReplyExtendsOneHistory(rs: seq<Record>, k: nat, input: string, reply: Option<string>)
    requires DistinctIds(rs) && k < |rs|
    ensures var rs' := UpdateWhere(rs, rs[k].id, Replace(WithTurns(rs[k], input, reply)));
      |rs'| == |rs|
      && HistoryOf(rs'[k]) == HistoryOf(rs[k]) + [ChatMessage(User, input), ChatMessage(Model, ReplyText(reply))]
      && rs'[k] == rs[k].(chatHistory := rs'[k].chatHistory)
      && forall i | 0 <= i < |rs| && i != k :: rs'[i] == rs[i]
  {
    assert forall i | 0 <= i < |rs| && i != k :: rs[i].id != rs[k].id;
  }

  /** The chat handler writes back the selected snapshot, not the list entry: an ERP id
      attached to the list entry after the record was selected is dropped by the next
      successful reply. */
  lemma ReplyDropsLaterSyncId(rs: seq<Record>, k: nat, n: nat, input: string, reply: Option<string>)
    requires DistinctIds(rs) && k < |rs| && rs[k].msDynamicsId.None?
    ensures var sel := rs[k];
      var synced := UpdateWhere(rs, sel.id, SetSyncId(SyncIdFor(n)));
      var chatted := UpdateWhere(synced, sel.id, Replace(WithTurns(sel, input, reply)));
      synced[k].msDynamicsId == Some(SyncIdFor(n)) && chatted[k].msDynamicsId.None?
  {
  }

  /** `INITIAL_ERRORS`, with `loadTime` for the `Date.now()` read when the module loads. */
  function InitialErrors(loadTime: int): seq<Record>
  {
    [ Record("1", "Sai lệch số dư đầu kỳ VCB",
             "Số dư đầu kỳ tài khoản 112101 không khớp với sao kê ngân hàng Vietcombank tháng 01/2024. Chênh lệch 2,500,000đ.",
             Ledger, High, Pending, loadTime - 86400000 * 3, "Nguyễn Văn A",
             Some(2500000.0), None, None, None, Some([]), None),
      Record("2", "Hóa đơn đầu vào không hợp lệ",
             "Hóa đơn số 001234 của NCC Công ty X sai địa chỉ công ty, cần yêu cầu xuất hóa đơn điều chỉnh.",
             Invoice, Medium, Processing, loadTime - 86400000, "Trần Thị B",
             None, Some("HD001234"), None, None, Some([]), None) ]
  }

  /** The initial list satisfies the identifier invariant, and the dashboard starts
      with two records, one pending and one processing. */
  lemma InitialErrorsWellFormed(loadTime: int)
    ensures IdsOneToN(InitialErrors(loadTime))
    ensures ComputeStats(InitialErrors(loadTime)) == DashboardStats(2, 1, 1, 0)
  {
    var rs := InitialErrors(loadTime);
    assert rs[1..][1..] == [];
    assert CountStatus(rs[1..], Pending) == 0 && CountStatus(rs[1..], Processing) == 1;
    assert CountStatus(rs[1..], Fixed) == 0;
    assert NatToString(1) == "1" && NatToString(2) == "2";
    assert IdSet(rs) == {"1", "2"} by {
      assert rs[0].id == "1" && rs[1].id == "2";
    }
    assert IdRange(2) == {"1", "2"} by {
      forall x | x in IdRange(2) ensures x in {"1", "2"} {
        var k :| 1 <= k <= 2 && NatToString(k) == x;
      }
      assert NatToString(1) in IdRange(2);
      assert NatToString(2) in IdRange(2);
    }
  }

  // ---------------------------------------------------------------------------
  // The store
  // ---------------------------------------------------------------------------

  /** The component state the handlers replace: `errors` and `selectedError`. */
  class ErrorStore {
    var errors: seq<Record>
    var selected: Option<Record>

    /** Ids are "1" to "n" without repetition, and a selected record is one of them. */
    ghost predicate Valid()
      reads this
    {
      IdsOneToN(errors) && (selected.Some? ==> selected.value.id in IdSet(errors))
    }

    constructor (loadTime: int)
      ensures Valid()
      ensures errors == InitialErrors(loadTime) && selected == None
    {
      errors := InitialErrors(loadTime);
      selected := None;
      InitialErrorsWellFormed(loadTime);
    }

    /** Clicking a card of the list: the record becomes the selected one. */
    method Select(r: Record)
      requires Valid() && r in errors
      modifies this
      ensures Valid()
      ensures errors == old(errors) && selected == Some(r)
    {
      selected := Some(r);
    }

    /** Leaving the detail view or switching tabs. */
    method Deselect()
      requires Valid()
      modifies this
      ensures Valid()
      ensures errors == old(errors) && selected == None
    {
      selected := None;
    }

    /** `handleCreateError`: ask for the analysis, build the record and prepend it. */
    method CreateError(form: FormData, base64Image: Option<string>,
                       generate: Request -> GenerateOutcome, parse: string -> ParseResult,
                       now: int, parsedAmount: Amount)
      requires Valid()
      modifies this
      ensures Valid()
      ensures |errors| == |old(errors)| + 1 && errors[1..] == old(errors)
      ensures selected == old(selected)
      ensures var analysis := Analyze(form.description, base64Image, generate, parse);
        errors[0] == Record(NatToString(|old(errors)| + 1), form.title, form.description,
                            analysis.category, analysis.priority, Pending, now, Reporter,
                            if form.amount != "" then Some(parsedAmount) else None,
                            Some(form.voucherNo), base64Image, analysis.suggestion, Some([]), None)
    {
      var analysis := Analyze(form.description, base64Image, generate, parse);
      var newError := Record(NextId(errors), form.title, form.description,
                             CategoryOr(analysis.category, form.category),
                             PriorityOr(analysis.priority, form.priority),
                             Pending, now, Reporter,
                             if form.amount != "" then Some(parsedAmount) else None,
                             Some(form.voucherNo), base64Image, analysis.suggestion, Some([]), None);
      PrependNextIdKeepsIds(errors, newError);
      assert IdSet(errors) <= IdSet([newError] + errors) by {
        forall x | x in IdSet(errors) ensures x in IdSet([newError] + errors) {
          var i :| 0 <= i < |errors| && errors[i].id == x;
          assert ([newError] + errors)[i + 1].id == x;
        }
      }
      errors := [newError] + errors;
    }

    /** `updateStatus`: set the status of the records with the id, and of the selected
        record when it has that id. */
    method UpdateStatus(id: string, newStatus: Status)
      requires Valid()
      modifies this
      ensures Valid()
      ensures errors == UpdateWhere(old(errors), id, SetStatus(newStatus))
      ensures selected == if old(selected).Some? && old(selected).value.id == id
                          then Some(old(selected).value.(status := newStatus)) else old(selected)
    {
      UpdateWhereFrame(errors, id, SetStatus(newStatus));
      errors := MapWhere(errors, id, SetStatus(newStatus));
      if selected.Some? && selected.value.id == id {
        selected := Some(selected.value.(status := newStatus));
      }
    }

    /** `handleSyncDynamics`, once its delay has elapsed: attach `MS-DYN-<n>` to the
        records with the id, `n` being the random draw in [0, 10000). The selected record
        is left as it was. */
    method SyncDynamics(id: string, n: nat)
      requires Valid() && n < 10000
      modifies this
      ensures Valid()
      ensures errors == UpdateWhere(old(errors), id, SetSyncId(SyncIdFor(n)))
      ensures selected == old(selected)
    {
      UpdateWhereFrame(errors, id, SetSyncId(SyncIdFor(n)));
      errors := MapWhere(errors, id, SetSyncId(SyncIdFor(n)));
    }

    /** `handleSendMessage`: nothing happens for blank input or without a selection, nor
        when the chat call fails; a reply writes the selected record, with the user's turn
        and the model's turn appended, over the records with its id and as the selection. */
    method SendMessage(input: string, outcome: ChatOutcome)
      requires Valid()
      modifies this
      ensures Valid()
      ensures Trim(input) == "" || old(selected).None? || outcome.ChatFailed? ==>
        errors == old(errors) && selected == old(selected)
      ensures Trim(input) != "" && old(selected).Some? && outcome.ChatReplied? ==>
        var updated := WithTurns(old(selected).value, input, outcome.text);
        errors == UpdateWhere(old(errors), old(selected).value.id, Replace(updated))
        && selected == Some(updated)
    {
      if Trim(input) == "" || selected.None? {
        return;
      }
      var sel := selected.value;
      match outcome
      case ChatFailed =>
      case ChatReplied(text) =>
        var updated := WithTurns(sel, input, text);
        UpdateWhereFrame(errors, sel.id, Replace(updated));
        errors := MapWhere(errors, sel.id, Replace(updated));
        selected := Some(updated);
    }
  }
}
