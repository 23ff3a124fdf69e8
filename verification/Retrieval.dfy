/**
 Authorised retrieval: two indexes that may fail or return anything, a re-check of every candidate
 against the database, fusion, an optional reranker and the cut to a character budget.
 */
module Retrieval {
  import opened Options
  import opened Fusion

  // ---- The authority in the database ----

  datatype ChunkRow = ChunkRow(
    tenantId: string, documentId: string, versionId: string, generationId: Option<string>,
    aclTokens: set<string>, active: bool)

  datatype DocumentRow = DocumentRow(
    tenantId: string, isActive: bool, activeVersionId: Option<string>,
    activeGenerationId: Option<string>)

  datatype Scope = Scope(
    spaceIds: set<string>, principalTokens: set<string>, documentIds: set<string>,
    generationIds: set<string>)

  datatype Database = Database(chunks: map<string, ChunkRow>, documents: map<string, DocumentRow>)

  /** The join that decides which chunks may be shown to a tenant. */
  predicate Visible(db: Database, tenant: string, chunkId: string) {
    && chunkId in db.chunks
    && var chunk := db.chunks[chunkId];
    && chunk.documentId in db.documents
    && var document := db.documents[chunk.documentId];
    && chunk.tenantId == tenant
    && document.tenantId == tenant
    && chunk.active
    && document.isActive
    && document.activeVersionId == Some(chunk.versionId)
    && (document.activeGenerationId.None? || chunk.generationId == document.activeGenerationId)
  }

  function ActiveRows(db: Database, tenant: string, ids: set<string>): map<string, ChunkRow> {
    map id | id in ids && Visible(db, tenant, id) :: db.chunks[id]
  }

  /** How an absent key prints where the service compares printed values. */
  function Printed(value: Option<string>): string {
    if value.Some? then value.value else "None"
  }

  // ---- The check of one candidate ----

  predicate Allowed(m: Metadata, row: ChunkRow, tenant: string, scope: Scope) {
    && m.tenantId == Some(tenant)
    && (m.spaceId.Some? && m.spaceId.value in scope.spaceIds)
    && m.documentId == Some(row.documentId)
    && m.versionId == Some(row.versionId)
    && m.aclTokens * scope.principalTokens != {}
    && row.aclTokens * scope.principalTokens != {}
    && (scope.documentIds == {} || row.documentId in scope.documentIds)
    && (row.generationId.None? || Printed(m.generationId) == Printed(row.generationId))
    && (scope.generationIds == {} || Printed(row.generationId) in scope.generationIds)
  }

  predicate Kept(c: Candidate, rows: map<string, ChunkRow>, tenant: string, scope: Scope) {
    c.chunkId in rows && Allowed(c.metadata, rows[c.chunkId], tenant, scope)
  }

  datatype Reason =
    | MissingOrInactiveAuthorityRow
    | TenantMismatch
    | StaleDocumentVersion
    | StaleIndexGeneration
    | UnauthorizedIndexGeneration
    | CandidateAclMismatch
    | AuthorityOrScopeMismatch

  function ReasonFor(c: Candidate, rows: map<string, ChunkRow>, tenant: string, scope: Scope): Reason {
    if c.chunkId !in rows then MissingOrInactiveAuthorityRow
    else
      var row := rows[c.chunkId];
      if c.metadata.tenantId != Some(tenant) then TenantMismatch
      else if c.metadata.versionId != Some(row.versionId) then StaleDocumentVersion
      else if row.generationId.Some? && Printed(c.metadata.generationId) != Printed(row.generationId)
        then StaleIndexGeneration
      else if scope.generationIds != {} && Printed(row.generationId) !in scope.generationIds
        then UnauthorizedIndexGeneration
      else if c.metadata.aclTokens * scope.principalTokens == {} then CandidateAclMismatch
      else AuthorityOrScopeMismatch
  }

  /** A rejected candidate is counted under the first of its faults in this order. */
  lemma ReasonIsFirstFault(c: Candidate, rows: map<string, ChunkRow>, tenant: string, scope: Scope)
    requires !Kept(c, rows, tenant, scope)
    ensures var reason, m := ReasonFor(c, rows, tenant, scope), c.metadata;
            && (reason == MissingOrInactiveAuthorityRow <==> c.chunkId !in rows)
            && (c.chunkId in rows ==>
                  var row := rows[c.chunkId];
                  var wrongTenant := m.tenantId != Some(tenant);
                  var wrongVersion := m.versionId != Some(row.versionId);
                  var wrongGeneration := row.generationId.Some? && Printed(m.generationId) != row.generationId.value;
                  var foreignGeneration := scope.generationIds != {} && Printed(row.generationId) !in scope.generationIds;
                  var noToken := m.aclTokens * scope.principalTokens == {};
                  && (reason == TenantMismatch <==> wrongTenant)
                  && (reason == StaleDocumentVersion <==> !wrongTenant && wrongVersion)
                  && (reason == StaleIndexGeneration <==> !wrongTenant && !wrongVersion && wrongGeneration)
                  && (reason == UnauthorizedIndexGeneration <==>
                        !wrongTenant && !wrongVersion && !wrongGeneration && foreignGeneration)
                  && (reason == CandidateAclMismatch <==>
                        !wrongTenant && !wrongVersion && !wrongGeneration && !foreignGeneration && noToken)
                  && (reason == AuthorityOrScopeMismatch <==>
                        !wrongTenant && !wrongVersion && !wrongGeneration && !foreignGeneration && !noToken))
  {
  }

  function KeptOf(list: Ranking, rows: map<string, ChunkRow>, tenant: string, scope: Scope): (r: Ranking)
    ensures forall c :: c in r ==> c in list && Kept(c, rows, tenant, scope)
    ensures |r| <= |list|
  {
    if list == [] then []
    else
      var n := |list| - 1;
      KeptOf(list[..n], rows, tenant, scope) + if Kept(list[n], rows, tenant, scope) then [list[n]] else []
  }

  function Validated(lists: seq<Ranking>, rows: map<string, ChunkRow>, tenant: string, scope: Scope): (r: seq<Ranking>)
    ensures |r| == |lists|
    ensures forall l :: l in r ==> forall c :: c in l ==> Kept(c, rows, tenant, scope)
    ensures forall i :: 0 <= i < |lists| ==> |r[i]| <= |lists[i]|
  {
    if lists == [] then []
    else
      Validated(lists[..|lists| - 1], rows, tenant, scope)
      + [KeptOf(lists[|lists| - 1], rows, tenant, scope)]
  }

  /** How many candidates of a list are rejected for a reason. */
  function RejectedFor(list: Ranking, rows: map<string, ChunkRow>, tenant: string, scope: Scope, reason: Reason): nat {
    if list == [] then 0
    else
      var n := |list| - 1;
      RejectedFor(list[..n], rows, tenant, scope, reason)
      + if !Kept(list[n], rows, tenant, scope) && ReasonFor(list[n], rows, tenant, scope) == reason then 1 else 0
  }

  type Counts = map<Reason, nat>

  function CountOf(counts: Counts, reason: Reason): nat {
    if reason in counts then counts[reason] else 0
  }

  function Bump(counts: Counts, reason: Reason): Counts {
    counts[reason := CountOf(counts, reason) + 1]
  }

  function Total(counts: Counts): nat {
    CountOf(counts, MissingOrInactiveAuthorityRow) + CountOf(counts, TenantMismatch)
    + CountOf(counts, StaleDocumentVersion) + CountOf(counts, StaleIndexGeneration)
    + CountOf(counts, UnauthorizedIndexGeneration) + CountOf(counts, CandidateAclMismatch)
    + CountOf(counts, AuthorityOrScopeMismatch)
  }

  function Size(lists: seq<Ranking>): nat {
    if lists == [] then 0 else Size(lists[..|lists| - 1]) + |lists[|lists| - 1]|
  }

  datatype Check = Check(validated: Ranking, rejected: nat, counts: Counts)

  function CheckOne(sofar: Check, c: Candidate, rows: map<string, ChunkRow>, tenant: string, scope: Scope): Check {
    if Kept(c, rows, tenant, scope) then sofar.(validated := sofar.validated + [c])
    else sofar.(rejected := sofar.rejected + 1,
                counts := Bump(sofar.counts, ReasonFor(c, rows, tenant, scope)))
  }

  function CheckList(list: Ranking, counts: Counts, rows: map<string, ChunkRow>, tenant: string, scope: Scope): Check {
    if list == [] then Check([], 0, counts)
    else CheckOne(CheckList(list[..|list| - 1], counts, rows, tenant, scope), list[|list| - 1], rows, tenant, scope)
  }

  /** The filter keeps exactly the allowed candidates in order, and counts every other one once,
      under its own reason. */
  lemma {:induction false} CheckAccounts(list: Ranking, counts: Counts, rows: map<string, ChunkRow>, tenant: string, scope: Scope)
    ensures var check := CheckList(list, counts, rows, tenant, scope);
            && check.validated == KeptOf(list, rows, tenant, scope)
            && |check.validated| + check.rejected == |list|
            && Total(check.counts) == Total(counts) + check.rejected
            && forall r :: CountOf(check.counts, r) == CountOf(counts, r) + RejectedFor(list, rows, tenant, scope, r)
  {
    if list != [] {
      var n := |list| - 1;
      CheckAccounts(list[..n], counts, rows, tenant, scope);
      var before := CheckList(list[..n], counts, rows, tenant, scope);
      BumpCounts(before.counts, ReasonFor(list[n], rows, tenant, scope));
      BumpTotal(before.counts, ReasonFor(list[n], rows, tenant, scope));
    }
  }

  lemma BumpTotal(counts: Counts, reason: Reason)
    ensures Total(Bump(counts, reason)) == Total(counts) + 1
  {
    match reason
    case _ =>
  }

  lemma BumpCounts(counts: Counts, reason: Reason)
    ensures forall r :: CountOf(Bump(counts, reason), r) == CountOf(counts, r) + if r == reason then 1 else 0
  {
  }

  function Rejected(lists: seq<Ranking>, rows: map<string, ChunkRow>, tenant: string, scope: Scope): nat {
    if lists == [] then 0
    else
      var n := |lists| - 1;
      Rejected(lists[..n], rows, tenant, scope) + CheckList(lists[n], map[], rows, tenant, scope).rejected
  }

  function Reasons(lists: seq<Ranking>, rows: map<string, ChunkRow>, tenant: string, scope: Scope): Counts {
    if lists == [] then map[]
    else
      var n := |lists| - 1;
      CheckList(lists[n], Reasons(lists[..n], rows, tenant, scope), rows, tenant, scope).counts
  }

  /** Nothing is lost: what is kept and what is rejected add up to what was offered, and the reason
      counts add up to the rejections. */
  lemma {:induction false} RejectionsAddUp(lists: seq<Ranking>, rows: map<string, ChunkRow>, tenant: string, scope: Scope)
    ensures Size(Validated(lists, rows, tenant, scope)) + Rejected(lists, rows, tenant, scope) == Size(lists)
    ensures Total(Reasons(lists, rows, tenant, scope)) == Rejected(lists, rows, tenant, scope)
  {
    if lists != [] {
      var n := |lists| - 1;
      var before := Validated(lists[..n], rows, tenant, scope);
      RejectionsAddUp(lists[..n], rows, tenant, scope);
      CheckAccounts(lists[n], map[], rows, tenant, scope);
      CheckAccounts(lists[n], Reasons(lists[..n], rows, tenant, scope), rows, tenant, scope);
      assert Validated(lists, rows, tenant, scope)[..n] == before;
    }
  }

  method ValidateList(list: Ranking, counts0: Counts, rows: map<string, ChunkRow>, tenant: string, scope: Scope)
    returns (validated: Ranking, rejected: nat, counts: Counts)
    ensures Check(validated, rejected, counts) == CheckList(list, counts0, rows, tenant, scope)
  {
    validated, rejected, counts := [], 0, counts0;
    for i := 0 to |list|
      invariant Check(validated, rejected, counts) == CheckList(list[..i], counts0, rows, tenant, scope)
    {
      assert list[..i + 1][..i] == list[..i];
      var c := list[i];
      if c.chunkId in rows && Allowed(c.metadata, rows[c.chunkId], tenant, scope) {
        validated := validated + [c];
      } else {
        rejected := rejected + 1;
        counts := Bump(counts, ReasonFor(c, rows, tenant, scope));
      }
    }
    assert list[..|list|] == list;
  }

  /** The filter loop over the result lists. */
  method ValidateCandidates(lists: seq<Ranking>, rows: map<string, ChunkRow>, tenant: string, scope: Scope)
    returns (validated: seq<Ranking>, rejected: nat, counts: Counts)
    ensures validated == Validated(lists, rows, tenant, scope)
    ensures rejected == Rejected(lists, rows, tenant, scope)
    ensures counts == Reasons(lists, rows, tenant, scope)
  {
    validated, rejected, counts := [], 0, map[];
    for i := 0 to |lists|
      invariant validated == Validated(lists[..i], rows, tenant, scope)
      invariant rejected == Rejected(lists[..i], rows, tenant, scope)
      invariant counts == Reasons(lists[..i], rows, tenant, scope)
    {
      assert lists[..i + 1][..i] == lists[..i];
      var list, n, next := ValidateList(lists[i], counts, rows, tenant, scope);
      CheckAccounts(lists[i], counts, rows, tenant, scope);
      CheckAccounts(lists[i], map[], rows, tenant, scope);
      validated := validated + [list];
      rejected := rejected + n;
      counts := next;
    }
    assert lists[..|lists|] == lists;
  }

  // ---- The evidence cut ----

  datatype Cut = Cut(chosen: seq<nat>, used: nat)

  predicate Eligible(c: Candidate, active: set<string>, threshold: real) {
    c.chunkId in active && c.score >= threshold
  }

  /** The positions taken from the first `n` reranked candidates, and the characters they use. */
  function CutTo(list: Ranking, n: nat, active: set<string>, threshold: real, budget: nat, limit: nat): (cut: Cut)
    requires n <= |list|
    ensures forall p :: p in cut.chosen ==> p < n
  {
    if n == 0 then Cut([], 0)
    else
      var before := CutTo(list, n - 1, active, threshold, budget, limit);
      var c := list[n - 1];
      if |before.chosen| >= limit && before.chosen != [] then before
      else if !Eligible(c, active, threshold) then before
      else if before.used + |c.text| > budget then before
      else Cut(before.chosen + [n - 1], before.used + |c.text|)
  }

  function Pick(list: Ranking, positions: seq<nat>): Ranking
    requires forall p :: p in positions ==> p < |list|
  {
    seq(|positions|, i requires 0 <= i < |positions| => assert positions[i] in positions; list[positions[i]])
  }

  function TextSize(list: Ranking): nat {
    if list == [] then 0 else TextSize(list[..|list| - 1]) + |list[|list| - 1].text|
  }

  lemma {:induction false} CutUses(list: Ranking, n: nat, active: set<string>, threshold: real, budget: nat, limit: nat)
    requires n <= |list|
    ensures var cut := CutTo(list, n, active, threshold, budget, limit);
            cut.used <= budget && cut.used == TextSize(Pick(list, cut.chosen))
  {
    if n > 0 {
      CutUses(list, n - 1, active, threshold, budget, limit);
      var before := CutTo(list, n - 1, active, threshold, budget, limit);
      var after := CutTo(list, n, active, threshold, budget, limit);
      if after != before {
        assert Pick(list, after.chosen)[..|before.chosen|] == Pick(list, before.chosen);
      }
    }
  }

  lemma {:induction false} CutOrders(list: Ranking, n: nat, active: set<string>, threshold: real, budget: nat, limit: nat)
    requires n <= |list| && limit > 0
    ensures var cut := CutTo(list, n, active, threshold, budget, limit);
            && (forall i, j :: 0 <= i < j < |cut.chosen| ==> cut.chosen[i] < cut.chosen[j])
            && (forall p :: p in cut.chosen ==> p < n && Eligible(list[p], active, threshold))
            && |cut.chosen| <= limit
  {
    if n > 0 {
      CutOrders(list, n - 1, active, threshold, budget, limit);
      var before := CutTo(list, n - 1, active, threshold, budget, limit);
      assert forall i :: 0 <= i < |before.chosen| ==> before.chosen[i] in before.chosen;
    }
  }

  lemma CutIsSubsequence(list: Ranking, n: nat, active: set<string>, threshold: real, budget: nat, limit: nat)
    requires n <= |list| && limit > 0
    ensures var cut := CutTo(list, n, active, threshold, budget, limit);
            && (forall i, j :: 0 <= i < j < |cut.chosen| ==> cut.chosen[i] < cut.chosen[j])
            && (forall p :: p in cut.chosen ==> p < n && Eligible(list[p], active, threshold))
            && |cut.chosen| <= limit
            && cut.used <= budget
            && cut.used == TextSize(Pick(list, cut.chosen))
  {
    CutUses(list, n, active, threshold, budget, limit);
    CutOrders(list, n, active, threshold, budget, limit);
  }

  lemma {:induction false} CutGrows(list: Ranking, m: nat, n: nat, active: set<string>, threshold: real, budget: nat, limit: nat)
    requires m <= n <= |list|
    ensures CutTo(list, m, active, threshold, budget, limit).chosen
         <= CutTo(list, n, active, threshold, budget, limit).chosen
  {
    if m < n {
      CutGrows(list, m, n - 1, active, threshold, budget, limit);
    }
  }

  /** The cut takes a position if and only if its candidate is active and relevant enough, the limit is not
      reached before it, and its text fits in what is left of the budget. */
  lemma {:induction false} CutTakes(list: Ranking, n: nat, active: set<string>, threshold: real, budget: nat, limit: nat, p: nat)
    requires p < n <= |list| && limit > 0
    ensures var before := CutTo(list, p, active, threshold, budget, limit);
            p in CutTo(list, n, active, threshold, budget, limit).chosen <==>
              && list[p].chunkId in active && list[p].score >= threshold
              && |before.chosen| < limit && before.used + |list[p].text| <= budget
  {
    if p < n - 1 {
      CutTakes(list, n - 1, active, threshold, budget, limit, p);
    }
  }

  /** A short result is a full one: every eligible candidate left out would have overflowed the
      budget used by the candidates taken before it. */
  lemma {:induction false} ShortCutIsMaximal(list: Ranking, n: nat, active: set<string>, threshold: real,
                                             budget: nat, limit: nat, p: nat)
    requires p < n <= |list| && limit > 0
    requires |CutTo(list, n, active, threshold, budget, limit).chosen| < limit
    requires Eligible(list[p], active, threshold)
    requires p !in CutTo(list, n, active, threshold, budget, limit).chosen
    ensures CutTo(list, p, active, threshold, budget, limit).used + |list[p].text| > budget
  {
    var before := CutTo(list, p, active, threshold, budget, limit);
    var after := CutTo(list, p + 1, active, threshold, budget, limit);
    var whole := CutTo(list, n, active, threshold, budget, limit);
    CutGrows(list, p, n, active, threshold, budget, limit);
    CutGrows(list, p + 1, n, active, threshold, budget, limit);
    assert |before.chosen| <= |whole.chosen|;
    assert before.used + |list[p].text| <= budget ==> after.chosen == before.chosen + [p];
    assert forall x :: x in after.chosen ==> x in whole.chosen;
    assert after.chosen == before.chosen + [p] ==> p in after.chosen;
  }

  method CutEvidence(reranked: Ranking, active: set<string>, threshold: real, budget: nat, limit: nat)
    returns (evidence: Ranking)
    requires limit > 0
    ensures evidence == Pick(reranked, CutTo(reranked, |reranked|, active, threshold, budget, limit).chosen)
  {
    evidence := [];
    var used := 0;
    var i := 0;
    while i < |reranked|
      invariant 0 <= i <= |reranked|
      invariant var cut := CutTo(reranked, i, active, threshold, budget, limit);
                && evidence == Pick(reranked, cut.chosen) && used == cut.used && |evidence| < limit
    {
      var c := reranked[i];
      i := i + 1;
      if c.chunkId !in active || c.score < threshold {
        continue;
      }
      if used + |c.text| > budget {
        continue;
      }
      evidence := evidence + [c];
      used := used + |c.text|;
      if |evidence| >= limit {
        CutStays(reranked, i, |reranked|, active, threshold, budget, limit);
        break;
      }
    }
  }

  lemma {:induction false} CutStays(list: Ranking, m: nat, n: nat, active: set<string>, threshold: real, budget: nat, limit: nat)
    requires m <= n <= |list| && limit > 0
    requires |CutTo(list, m, active, threshold, budget, limit).chosen| >= limit
    ensures CutTo(list, n, active, threshold, budget, limit)
         == CutTo(list, m, active, threshold, budget, limit)
  {
    if m < n {
      CutStays(list, m, n - 1, active, threshold, budget, limit);
    }
  }

  // ---- The whole retrieval ----

  datatype Policy = Policy(
    fusionK: nat, rerankTopK: nat, evidenceTopK: nat, threshold: real, budget: nat, degradable: bool)

  /** What the policy's constructor enforces. */
  predicate ValidPolicy(p: Policy) {
    p.fusionK > 0 && p.rerankTopK > 0 && p.evidenceTopK > 0 && p.budget > 0 && p.threshold >= 0.0
  }

  datatype Retrieved =
    | Unavailable
    | Retrieved(evidence: Ranking, degraded: bool, rejected: nat)

  type Reranker = Ranking -> Option<Ranking>

  /** The reranker reorders, rescores and drops, but invents nothing. */
  ghost predicate Faithful(rerank: Reranker) {
    forall list: Ranking :: rerank(list).Some? ==>
      forall c :: c in rerank(list).value ==>
        exists b :: b in list && b.chunkId == c.chunkId && b.metadata == c.metadata && b.text == c.text
  }

  function Answered(result: Option<Ranking>): seq<Ranking> {
    if result.Some? then [result.value] else []
  }

  /** What every piece of evidence must have behind it: a row of the tenant and its document, both active
      and of the active version and generation; metadata that agree with them; and a space, a token, and
      where the scope is narrowed a document and a generation, that the caller may see. */
  predicate Authorised(c: Candidate, db: Database, tenant: string, scope: Scope) {
    && c.chunkId in db.chunks
    && var row := db.chunks[c.chunkId];
    && row.documentId in db.documents
    && var document := db.documents[row.documentId];
    && row.active && document.isActive
    && row.tenantId == tenant && document.tenantId == tenant && c.metadata.tenantId == Some(tenant)
    && c.metadata.documentId == Some(row.documentId)
    && c.metadata.versionId == Some(row.versionId) == document.activeVersionId
    && (document.activeGenerationId.Some? ==> row.generationId == document.activeGenerationId)
    && (row.generationId.Some? ==>
          row.generationId.value == if c.metadata.generationId.Some? then c.metadata.generationId.value else "None")
    && c.metadata.spaceId.Some? && c.metadata.spaceId.value in scope.spaceIds
    && (exists token :: token in c.metadata.aclTokens && token in scope.principalTokens)
    && (exists token :: token in row.aclTokens && token in scope.principalTokens)
    && (scope.documentIds == {} || row.documentId in scope.documentIds)
    && (scope.generationIds == {}
        || (if row.generationId.Some? then row.generationId.value else "None") in scope.generationIds)
  }

  lemma FusedAreKept(lists: seq<Ranking>, k: nat, rows: map<string, ChunkRow>, tenant: string, scope: Scope)
    requires k > 0
    requires forall l :: l in lists ==> forall c :: c in l ==> Kept(c, rows, tenant, scope)
    ensures forall c :: c in Fused(lists, k) ==> Kept(c, rows, tenant, scope)
  {
    FusionMeetsSpecification(lists, k);
    forall c | c in Fused(lists, k) ensures Kept(c, rows, tenant, scope) {
      assert FusedEntry(lists, k, c);
      LastHasId(lists, c.chunkId);
      var last := Last(lists, c.chunkId).value;
      assert Kept(last, rows, tenant, scope);
    }
  }

  /** The check keeps a candidate that an index returned if and only if it is authorised. */
  lemma KeptIffAuthorised(c: Candidate, db: Database, ids: set<string>, tenant: string, scope: Scope)
    requires c.chunkId in ids
    ensures Kept(c, ActiveRows(db, tenant, ids), tenant, scope) <==> Authorised(c, db, tenant, scope)
  {
    if c.chunkId in db.chunks {
      MeetIffShared(c.metadata.aclTokens, scope.principalTokens);
      MeetIffShared(db.chunks[c.chunkId].aclTokens, scope.principalTokens);
    }
  }

  lemma MeetIffShared(a: set<string>, b: set<string>)
    ensures a * b != {} <==> exists x :: x in a && x in b
  {
    if x :| x in a && x in b {
      assert x in a * b;
    }
  }

  function Min(a: nat, b: nat): nat {
    if a < b then a else b
  }

  /** At most four times the rerank width goes to the reranker. */
  function Bound(fused: Ranking, width: nat): Ranking {
    fused[..Min(width * 4, |fused|)]
  }

  function ValidatedFor(lists: seq<Ranking>, db: Database, tenant: string, scope: Scope): seq<Ranking> {
    Validated(lists, ActiveRows(db, tenant, Ids(lists)), tenant, scope)
  }

  /** What the reranker answers for these lists; None when it raises. */
  function RerankOutcome(lists: seq<Ranking>, rerank: Reranker, db: Database, tenant: string, scope: Scope, policy: Policy): Option<Ranking>
    requires ValidPolicy(policy)
  {
    rerank(Bound(Fused(ValidatedFor(lists, db, tenant, scope), policy.fusionK), policy.rerankTopK))
  }

  /** The candidates that reach the evidence cut. */
  function Reranked(lists: seq<Ranking>, rerank: Reranker, db: Database, tenant: string, scope: Scope, policy: Policy): Ranking
    requires ValidPolicy(policy)
  {
    var bounded := Bound(Fused(ValidatedFor(lists, db, tenant, scope), policy.fusionK), policy.rerankTopK);
    match RerankOutcome(lists, rerank, db, tenant, scope, policy)
    case Some(list) => list
    case None => bounded[..Min(policy.rerankTopK, |bounded|)]
  }

  function Evidence(reranked: Ranking, active: set<string>, policy: Policy): Ranking {
    Pick(reranked, CutTo(reranked, |reranked|, active, policy.threshold, policy.budget, policy.evidenceTopK).chosen)
  }

  /** What a retrieval over these searches answers, by its inputs: the reranker is asked with the first
      4 * rerankTopK fused candidates, and when it raises the first rerankTopK go to the cut; the first
      candidate at the cut is evidence when it is relevant enough and fits the budget. */
  ghost predicate Serves(r: Retrieved, searches: seq<Ranking>, rerank: Reranker, db: Database, tenant: string,
                         scope: Scope, policy: Policy)
    requires ValidPolicy(policy)
  {
    var validated := ValidatedFor(searches, db, tenant, scope);
    var fused := Fused(validated, policy.fusionK);
    var answer := rerank(if |fused| <= 4 * policy.rerankTopK then fused else fused[..4 * policy.rerankTopK]);
    var cut := if answer.Some? then answer.value
               else if |fused| <= policy.rerankTopK then fused else fused[..policy.rerankTopK];
    var active := ActiveRows(db, tenant, Ids(searches)).Keys;
    && (r.Unavailable? <==> searches == [] || (!policy.degradable && (|searches| != 2 || answer.None?)))
    && (r.Retrieved? ==>
          && r.degraded == (|searches| != 2 || answer.None?)
          && r.rejected + Size(validated) == Size(searches)
          && r.evidence == Evidence(cut, active, policy)
          && (cut != [] && cut[0].chunkId in active && cut[0].score >= policy.threshold && |cut[0].text| <= policy.budget ==>
                r.evidence != [] && r.evidence[0] == cut[0]))
  }

  /** The service's steps. `None` stands for a search that raised. */
  method Retrieve(dense: Option<Ranking>, lexical: Option<Ranking>, rerank: Reranker,
                  db: Database, tenant: string, scope: Scope, policy: Policy)
    returns (r: Retrieved)
    requires ValidPolicy(policy)
    ensures r == RetrieveSpec(Answered(dense) + Answered(lexical), rerank, db, tenant, scope, policy)
    ensures Serves(r, (if dense.Some? then [dense.value] else []) + (if lexical.Some? then [lexical.value] else []),
                   rerank, db, tenant, scope, policy)
  {
    var successful := Answered(dense) + Answered(lexical);
    SpecServes(successful, rerank, db, tenant, scope, policy);
    var degraded := |successful| != 2;
    if successful == [] || (degraded && !policy.degradable) {
      return Unavailable;
    }
    var rows := ActiveRows(db, tenant, Ids(successful));
    var validated, rejected, counts := ValidateCandidates(successful, rows, tenant, scope);
    var fused := Fuse(validated, policy.fusionK);
    var bounded := Bound(fused, policy.rerankTopK);
    var outcome := rerank(bounded);
    assert outcome == RerankOutcome(successful, rerank, db, tenant, scope, policy);
    var reranked := bounded[..Min(policy.rerankTopK, |bounded|)];
    if outcome.Some? {
      reranked := outcome.value;
    } else {
      if !policy.degradable {
        return Unavailable;
      }
      degraded := true;
    }
    assert reranked == Reranked(successful, rerank, db, tenant, scope, policy);
    var evidence := CutEvidence(reranked, rows.Keys, policy.threshold, policy.budget, policy.evidenceTopK);
    r := Retrieved(evidence, degraded, rejected);
  }

  function RetrieveSpec(lists: seq<Ranking>, rerank: Reranker, db: Database, tenant: string,
                        scope: Scope, policy: Policy): Retrieved
    requires ValidPolicy(policy)
  {
    var failed := RerankOutcome(lists, rerank, db, tenant, scope, policy).None?;
    if lists == [] || (!policy.degradable && (|lists| != 2 || failed)) then Unavailable
    else
      Retrieved(Evidence(Reranked(lists, rerank, db, tenant, scope, policy),
                         ActiveRows(db, tenant, Ids(lists)).Keys, policy),
                |lists| != 2 || failed,
                Rejected(lists, ActiveRows(db, tenant, Ids(lists)), tenant, scope))
  }

  /** The first candidate at the cut is the first evidence when it is relevant enough and fits the budget. */
  lemma FirstIsEvidence(reranked: Ranking, active: set<string>, policy: Policy)
    requires ValidPolicy(policy)
    ensures reranked != [] && reranked[0].chunkId in active
            && reranked[0].score >= policy.threshold && |reranked[0].text| <= policy.budget ==>
              Evidence(reranked, active, policy) != [] && Evidence(reranked, active, policy)[0] == reranked[0]
  {
    if reranked != [] {
      assert CutTo(reranked, 0, active, policy.threshold, policy.budget, policy.evidenceTopK) == Cut([], 0);
      CutGrows(reranked, 1, |reranked|, active, policy.threshold, policy.budget, policy.evidenceTopK);
    }
  }

  lemma RerankedByPosition(lists: seq<Ranking>, rerank: Reranker, db: Database, tenant: string, scope: Scope, policy: Policy)
    requires ValidPolicy(policy)
    ensures var fused := Fused(ValidatedFor(lists, db, tenant, scope), policy.fusionK);
            var answer := rerank(if |fused| <= 4 * policy.rerankTopK then fused else fused[..4 * policy.rerankTopK]);
            && RerankOutcome(lists, rerank, db, tenant, scope, policy) == answer
            && Reranked(lists, rerank, db, tenant, scope, policy)
               == if answer.Some? then answer.value
                  else if |fused| <= policy.rerankTopK then fused else fused[..policy.rerankTopK]
  {
    var fused := Fused(ValidatedFor(lists, db, tenant, scope), policy.fusionK);
    assert fused[..|fused|] == fused;
    assert Bound(fused, policy.rerankTopK) == if |fused| <= 4 * policy.rerankTopK then fused else fused[..4 * policy.rerankTopK];
  }

  lemma SpecServes(lists: seq<Ranking>, rerank: Reranker, db: Database, tenant: string, scope: Scope, policy: Policy)
    requires ValidPolicy(policy)
    ensures Serves(RetrieveSpec(lists, rerank, db, tenant, scope, policy), lists, rerank, db, tenant, scope, policy)
  {
    var rows := ActiveRows(db, tenant, Ids(lists));
    RerankedByPosition(lists, rerank, db, tenant, scope, policy);
    RejectionsAddUp(lists, rows, tenant, scope);
    FirstIsEvidence(Reranked(lists, rerank, db, tenant, scope, policy), rows.Keys, policy);
  }

  /** When reranking fails, position by position the best fused candidates go to the cut. */
  lemma FallbackCutsBestFused(lists: seq<Ranking>, rerank: Reranker, db: Database, tenant: string, scope: Scope,
                              policy: Policy, p: nat)
    requires ValidPolicy(policy) && RerankOutcome(lists, rerank, db, tenant, scope, policy).None?
    ensures var fused := Fused(ValidatedFor(lists, db, tenant, scope), policy.fusionK);
            var cut := Reranked(lists, rerank, db, tenant, scope, policy);
            && (p < |cut| <==> p < policy.rerankTopK && p < |fused|)
            && (p < |cut| ==> cut[p] == fused[p] && Authorised(cut[p], db, tenant, scope))
  {
    var rows := ActiveRows(db, tenant, Ids(lists));
    var validated := ValidatedFor(lists, db, tenant, scope);
    var fused := Fused(validated, policy.fusionK);
    RerankedByPosition(lists, rerank, db, tenant, scope, policy);
    FusedAreKept(validated, policy.fusionK, rows, tenant, scope);
    if p < |fused| {
      assert fused[p] in fused && Kept(fused[p], rows, tenant, scope);
      KeptIffAuthorised(fused[p], db, Ids(lists), tenant, scope);
    }
  }

  lemma RerankedAreAuthorised(lists: seq<Ranking>, rerank: Reranker, db: Database, tenant: string,
                              scope: Scope, policy: Policy)
    requires ValidPolicy(policy) && Faithful(rerank)
    ensures forall c :: c in Reranked(lists, rerank, db, tenant, scope, policy) ==> Authorised(c, db, tenant, scope)
  {
    var rows := ActiveRows(db, tenant, Ids(lists));
    var validated := Validated(lists, rows, tenant, scope);
    var bounded := Bound(Fused(validated, policy.fusionK), policy.rerankTopK);
    var reranked := Reranked(lists, rerank, db, tenant, scope, policy);
    FusedAreKept(validated, policy.fusionK, rows, tenant, scope);
    RerankedAreKept(bounded, rerank(bounded), reranked, rerank, rows, tenant, scope);
    forall c | c in reranked ensures Authorised(c, db, tenant, scope) {
      KeptIffAuthorised(c, db, Ids(lists), tenant, scope);
    }
  }

  /** Whatever the two indexes return, no evidence escapes the authority check, and the evidence
      keeps to the count limit and the character budget. */
  lemma EvidenceIsAuthorised(lists: seq<Ranking>, rerank: Reranker, db: Database, tenant: string,
                             scope: Scope, policy: Policy)
    requires ValidPolicy(policy) && Faithful(rerank)
    ensures var r := RetrieveSpec(lists, rerank, db, tenant, scope, policy);
            r.Retrieved? ==>
              && (forall c :: c in r.evidence ==> Authorised(c, db, tenant, scope))
              && |r.evidence| <= policy.evidenceTopK
              && TextSize(r.evidence) <= policy.budget
  {
    RerankedAreAuthorised(lists, rerank, db, tenant, scope, policy);
    EvidenceIsPicked(Reranked(lists, rerank, db, tenant, scope, policy),
                     ActiveRows(db, tenant, Ids(lists)).Keys, policy);
  }

  lemma EvidenceIsPicked(reranked: Ranking, active: set<string>, policy: Policy)
    requires ValidPolicy(policy)
    ensures var evidence := Evidence(reranked, active, policy);
            && (forall c :: c in evidence ==> c in reranked)
            && |evidence| <= policy.evidenceTopK && TextSize(evidence) <= policy.budget
  {
    CutIsSubsequence(reranked, |reranked|, active, policy.threshold, policy.budget, policy.evidenceTopK);
  }

  lemma RerankedAreKept(bounded: Ranking, outcome: Option<Ranking>, reranked: Ranking, rerank: Reranker,
                        rows: map<string, ChunkRow>, tenant: string, scope: Scope)
    requires Faithful(rerank) && outcome == rerank(bounded)
    requires forall c :: c in bounded ==> Kept(c, rows, tenant, scope)
    requires outcome.Some? ==> reranked == outcome.value
    requires outcome.None? ==> reranked <= bounded
    ensures forall c :: c in reranked ==> Kept(c, rows, tenant, scope)
  {
    if outcome.None? {
      assert forall c :: c in reranked ==> c in bounded;
    }
  }

  lemma FusedScoresReach(lists: seq<Ranking>, k: nat, topK: nat, threshold: real)
    requires k > 0
    requires forall l :: l in lists ==> |l| <= topK
    requires Weight(k, topK) >= threshold
    ensures forall c :: c in Fused(lists, k) ==> c.score >= threshold
  {
    FusionMeetsSpecification(lists, k);
    forall c | c in Fused(lists, k) ensures c.score >= threshold {
      assert FusedEntry(lists, k, c);
      assert c.chunkId in IdsIn(Fused(lists, k));
      ScoreFloor(lists, k, topK, c.chunkId);
    }
  }

  lemma {:induction false} ValidatedNoLonger(lists: seq<Ranking>, rows: map<string, ChunkRow>, tenant: string, scope: Scope, topK: nat)
    requires forall l :: l in lists ==> |l| <= topK
    ensures forall l :: l in Validated(lists, rows, tenant, scope) ==> |l| <= topK
  {
    forall l | l in Validated(lists, rows, tenant, scope) ensures |l| <= topK {
      var i :| 0 <= i < |lists| && Validated(lists, rows, tenant, scope)[i] == l;
      assert lists[i] in lists;
    }
  }

  /** When reranking fails and the fused scores are used directly, the relevance threshold removes
      nothing as long as the worst possible rank still reaches it: every candidate that gets to the
      evidence cut is eligible. */
  lemma FallbackThresholdDropsNothing(lists: seq<Ranking>, rerank: Reranker, db: Database, tenant: string, scope: Scope,
                                      policy: Policy, topK: nat)
    requires ValidPolicy(policy) && RerankOutcome(lists, rerank, db, tenant, scope, policy).None?
    requires forall l :: l in lists ==> |l| <= topK
    requires Weight(policy.fusionK, topK) >= policy.threshold
    ensures forall c :: c in Reranked(lists, rerank, db, tenant, scope, policy) ==>
              Eligible(c, ActiveRows(db, tenant, Ids(lists)).Keys, policy.threshold)
  {
    var rows := ActiveRows(db, tenant, Ids(lists));
    var validated := ValidatedFor(lists, db, tenant, scope);
    ValidatedNoLonger(lists, rows, tenant, scope, topK);
    FusedScoresReach(validated, policy.fusionK, topK, policy.threshold);
    FusedAreKept(validated, policy.fusionK, rows, tenant, scope);
    assert forall c :: c in Reranked(lists, rerank, db, tenant, scope, policy) ==> c in Fused(validated, policy.fusionK);
  }

  const DEFAULT_POLICY := Policy(60, 12, 6, 0.01, 24000, true)

  const DEFAULT_TOP_K := 20

  /** The defaults meet the condition, since 1/80 is at least 0.01. */
  lemma DefaultThresholdDropsNothing(lists: seq<Ranking>, rerank: Reranker, db: Database, tenant: string, scope: Scope)
    requires RerankOutcome(lists, rerank, db, tenant, scope, DEFAULT_POLICY).None?
    requires forall l :: l in lists ==> |l| <= DEFAULT_TOP_K
    ensures forall c :: c in Reranked(lists, rerank, db, tenant, scope, DEFAULT_POLICY) ==>
              Eligible(c, ActiveRows(db, tenant, Ids(lists)).Keys, 0.01)
  {
    assert Weight(60, 20) >= 0.01;
    FallbackThresholdDropsNothing(lists, rerank, db, tenant, scope, DEFAULT_POLICY, DEFAULT_TOP_K);
  }
}
