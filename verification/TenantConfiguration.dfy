/**
 Immutable, versioned tenant configuration with an optimistic revision: create, activate and roll
 back. The two fields whose validators rewrite their input are modelled as they are; the other
 fields are one opaque value, which validation refuses or returns with its defaults filled in.

 Validators do not run on defaults, and the default list of extensions is not sorted. So what is
 stored for a configuration that omits the list changes when it is validated once more, and the
 first version of a tenant is stored without any validation.
 */
module TenantConfiguration {
  import opened Options
  import opened StringOrder

  // ---- Validation and normalisation ----

  /** A configuration as it is given or stored; an omitted list of bindings is its default, []. */
  datatype Config = Config(extensions: Option<seq<string>>, secretBindings: seq<string>, rest: string)

  const DEFAULT_EXTENSIONS := [".pdf", ".docx", ".xlsx", ".pptx", ".md", ".txt", ".html"]

  const SORTED_DEFAULTS := [".docx", ".html", ".md", ".pdf", ".pptx", ".txt", ".xlsx"]

  type Schema = string -> Option<string>

  /** Filled-in fields stay as they are. */
  ghost predicate FillsInOnce(resolve: Schema) {
    forall rest :: resolve(rest).Some? ==> resolve(resolve(rest).value) == resolve(rest)
  }

  predicate IsBlank(s: string) {
    forall i :: 0 <= i < |s| ==> s[i] in " \t\n\r"
  }

  function LowerChar(c: char): char {
    if 'A' <= c <= 'Z' then (c as int + 32) as char else c
  }

  function Lower(s: string): (r: string)
    ensures |r| == |s| && forall i :: 0 <= i < |s| ==> r[i] == LowerChar(s[i])
  {
    seq(|s|, i requires 0 <= i < |s| => LowerChar(s[i]))
  }

  function NormalExtension(s: string): string {
    if "." <= s then Lower(s) else "." + Lower(s)
  }

  /** Insertion into a strictly ascending sequence; a duplicate is dropped. */
  function InsertUnique(sorted: seq<string>, x: string): seq<string> {
    if sorted == [] || Less(x, sorted[0]) then [x] + sorted
    else if x == sorted[0] then sorted
    else [sorted[0]] + InsertUnique(sorted[1..], x)
  }

  /** The sorted set of the normalised, non-blank extensions. */
  function NormalExtensions(values: seq<string>): seq<string> {
    if values == [] then []
    else if IsBlank(values[0]) then NormalExtensions(values[1..])
    else InsertUnique(NormalExtensions(values[1..]), NormalExtension(values[0]))
  }

  /** First occurrences, in order. */
  function Dedupe(values: seq<string>): seq<string> {
    if values == [] then []
    else
      var n := |values| - 1;
      var before := Dedupe(values[..n]);
      if values[n] in before then before else before + [values[n]]
  }

  predicate AnyBlank(values: seq<string>) {
    exists i :: 0 <= i < |values| && IsBlank(values[i])
  }

  /** The default is taken as it is; a list that is given is normalised and must not end empty. */
  function ResolveExtensions(given: Option<seq<string>>): Option<seq<string>> {
    if given.None? then Some(DEFAULT_EXTENSIONS)
    else if NormalExtensions(given.value) == [] then None
    else Some(NormalExtensions(given.value))
  }

  /** The validated model, dumped again; None when validation fails. */
  function Normalise(resolve: Schema, c: Config): Option<Config> {
    var extensions := ResolveExtensions(c.extensions);
    var rest := resolve(c.rest);
    if extensions.None? || AnyBlank(c.secretBindings) || rest.None? then None
    else Some(Config(extensions, Dedupe(c.secretBindings), rest.value))
  }

  predicate Ascending(values: seq<string>) {
    forall i, j :: 0 <= i < j < |values| ==> Less(values[i], values[j])
  }

  predicate NormalEach(values: seq<string>) {
    forall i :: 0 <= i < |values| ==> !IsBlank(values[i]) && NormalExtension(values[i]) == values[i]
  }

  lemma {:induction false} InsertUniqueMembers(sorted: seq<string>, x: string)
    ensures forall y :: y in InsertUnique(sorted, x) <==> y in sorted || y == x
  {
    if sorted != [] && !Less(x, sorted[0]) && x != sorted[0] {
      InsertUniqueMembers(sorted[1..], x);
      assert sorted == [sorted[0]] + sorted[1..];
    }
  }

  lemma {:induction false} InsertUniqueAscends(sorted: seq<string>, x: string)
    requires Ascending(sorted)
    ensures Ascending(InsertUnique(sorted, x))
  {
    if sorted == [] {
    } else if Less(x, sorted[0]) {
      forall j | 0 < j < |sorted| ensures Less(x, sorted[j]) {
        LessIsTransitive(x, sorted[0], sorted[j]);
      }
    } else if x != sorted[0] {
      LessIsTotal(x, sorted[0]);
      InsertUniqueAscends(sorted[1..], x);
      InsertUniqueMembers(sorted[1..], x);
      var r := InsertUnique(sorted[1..], x);
      forall j | 0 <= j < |r| ensures Less(sorted[0], r[j]) {
        assert r[j] in r;
      }
    }
  }

  lemma NormalExtensionIsStable(s: string)
    requires !IsBlank(s)
    ensures !IsBlank(NormalExtension(s))
    ensures NormalExtension(NormalExtension(s)) == NormalExtension(s)
  {
    var r := NormalExtension(s);
    assert r[0] == '.';
    assert Lower(r) == r;
  }

  lemma {:induction false} NormalExtensionsAreNormal(values: seq<string>)
    ensures Ascending(NormalExtensions(values)) && NormalEach(NormalExtensions(values))
  {
    if values != [] {
      NormalExtensionsAreNormal(values[1..]);
      if !IsBlank(values[0]) {
        var before := NormalExtensions(values[1..]);
        var x := NormalExtension(values[0]);
        InsertUniqueAscends(before, x);
        InsertUniqueMembers(before, x);
        NormalExtensionIsStable(values[0]);
        var after := InsertUnique(before, x);
        forall i | 0 <= i < |after| ensures !IsBlank(after[i]) && NormalExtension(after[i]) == after[i] {
          assert after[i] in after;
        }
      }
    }
  }

  lemma {:induction false} NormalExtensionsAreFixed(values: seq<string>)
    requires Ascending(values) && NormalEach(values)
    ensures NormalExtensions(values) == values
  {
    if values != [] {
      NormalExtensionsAreFixed(values[1..]);
      assert |values| > 1 ==> Less(values[0], values[1]);
    }
  }

  /** What is stored for an extension: it begins with a dot, has no capital letter, and differs from what
      was given in nothing but these two. */
  lemma NormalExtensionMeans(s: string)
    ensures var r := NormalExtension(s);
            var given := if s != "" && s[0] == '.' then s else "." + s;
            && |r| == |given| && r[0] == '.'
            && (forall i :: 0 <= i < |r| ==> !('A' <= r[i] <= 'Z'))
            && (forall i :: 0 <= i < |r| ==>
                  r[i] == given[i] || ('A' <= given[i] <= 'Z' && r[i] as int - 'a' as int == given[i] as int - 'A' as int))
  {
    assert "." <= s <==> s != "" && s[0] == '.';
  }

  /** The stored extensions are those of the given values that are not blank, each once, sorted. */
  lemma StoredExtensionsMean(values: seq<string>)
    ensures var stored := NormalExtensions(values);
            && (forall x :: x in stored <==>
                  exists i :: 0 <= i < |values| && !(forall k :: 0 <= k < |values[i]| ==> values[i][k] in " \t\n\r")
                              && NormalExtension(values[i]) == x)
            && (forall i, j :: 0 <= i < j < |stored| ==> Less(stored[i], stored[j]))
  {
    NormalExtensionsMembers(values);
    NormalExtensionsAreNormal(values);
    forall i | 0 <= i < |values|
      ensures IsBlank(values[i]) <==> forall k :: 0 <= k < |values[i]| ==> values[i][k] in " \t\n\r"
    {
    }
  }

  predicate NoDuplicates(values: seq<string>) {
    forall i, j :: 0 <= i < j < |values| ==> values[i] != values[j]
  }

  lemma {:induction false} DedupeIsFixed(values: seq<string>)
    ensures NoDuplicates(Dedupe(values))
    ensures forall x :: x in Dedupe(values) ==> x in values
    ensures forall x :: x in values ==> x in Dedupe(values)
    ensures NoDuplicates(values) ==> Dedupe(values) == values
  {
    if values != [] {
      DedupeIsFixed(values[..|values| - 1]);
    }
  }

  /** The bindings keep the order in which they are named first. */
  lemma {:induction false} DedupeKeepsOrder(values: seq<string>, k: nat)
    requires k <= |values|
    ensures Dedupe(values[..k]) <= Dedupe(values)
  {
    if k < |values| {
      var n := |values| - 1;
      DedupeKeepsOrder(values[..n], k);
      assert values[..n][..k] == values[..k];
    } else {
      assert values[..k] == values;
    }
  }

  lemma {:induction false} NormalExtensionsMembers(values: seq<string>)
    ensures forall y :: y in NormalExtensions(values) <==>
              exists i :: 0 <= i < |values| && !IsBlank(values[i]) && NormalExtension(values[i]) == y
  {
    if values != [] {
      var tail := values[1..];
      NormalExtensionsMembers(tail);
      InsertUniqueMembers(NormalExtensions(tail), NormalExtension(values[0]));
      forall y
        ensures y in NormalExtensions(values) <==>
                  exists i :: 0 <= i < |values| && !IsBlank(values[i]) && NormalExtension(values[i]) == y
      {
        if i :| 0 <= i < |values| && !IsBlank(values[i]) && NormalExtension(values[i]) == y {
          assert i > 0 ==> values[i] == tail[i - 1];
        }
        if i :| 0 <= i < |tail| && !IsBlank(tail[i]) && NormalExtension(tail[i]) == y {
          assert tail[i] == values[i + 1];
        }
      }
    }
  }

  /** The configurations that validation returns as they are. */
  ghost predicate IsSettled(resolve: Schema, c: Config) {
    && c.extensions.Some? && c.extensions.value != []
    && Ascending(c.extensions.value) && NormalEach(c.extensions.value)
    && NoDuplicates(c.secretBindings) && !AnyBlank(c.secretBindings)
    && resolve(c.rest) == Some(c.rest)
  }

  lemma SettledIffUnchanged(resolve: Schema, c: Config)
    ensures IsSettled(resolve, c) <==> Normalise(resolve, c) == Some(c)
  {
    DedupeIsFixed(c.secretBindings);
    if c.extensions.Some? {
      NormalExtensionsAreNormal(c.extensions.value);
      if Ascending(c.extensions.value) && NormalEach(c.extensions.value) {
        NormalExtensionsAreFixed(c.extensions.value);
      }
    }
  }

  lemma DedupedIsNotBlank(values: seq<string>)
    requires !AnyBlank(values)
    ensures NoDuplicates(Dedupe(values)) && !AnyBlank(Dedupe(values))
  {
    DedupeIsFixed(values);
    var once := Dedupe(values);
    forall i | 0 <= i < |once| ensures !IsBlank(once[i]) {
      assert once[i] in values;
    }
  }

  lemma DefaultIsNotSorted()
    ensures !Ascending(DEFAULT_EXTENSIONS)
  {
    assert !Less(".pdf", ".docx") by {
      assert ".pdf"[1..] == "pdf" && ".docx"[1..] == "docx";
    }
    assert DEFAULT_EXTENSIONS[0] == ".pdf" && DEFAULT_EXTENSIONS[1] == ".docx";
  }

  /** Validating what validation produced changes nothing if and only if the list was given. */
  lemma RevalidationIsIdentityIffNamed(resolve: Schema, raw: Config)
    requires FillsInOnce(resolve) && Normalise(resolve, raw).Some?
    ensures var stored := Normalise(resolve, raw);
            Normalise(resolve, stored.value) == stored <==> raw.extensions.Some?
  {
    var stored := Normalise(resolve, raw).value;
    SettledIffUnchanged(resolve, stored);
    DedupedIsNotBlank(raw.secretBindings);
    if raw.extensions.Some? {
      NormalExtensionsAreNormal(raw.extensions.value);
    } else {
      DefaultIsNotSorted();
    }
  }

  lemma NormalOfNamedIsNotEmpty(values: seq<string>, i: nat)
    requires i < |values| && !IsBlank(values[i])
    ensures NormalExtensions(values) != []
  {
    NormalExtensionsMembers(values);
    assert NormalExtension(values[i]) in NormalExtensions(values);
  }

  /** What validation returned is never refused, and its second validation is the last to change it. */
  lemma SecondValidationSettles(resolve: Schema, raw: Config)
    requires FillsInOnce(resolve) && Normalise(resolve, raw).Some?
    ensures var stored := Normalise(resolve, raw).value;
            Normalise(resolve, stored).Some? && IsSettled(resolve, Normalise(resolve, stored).value)
  {
    var stored := Normalise(resolve, raw).value;
    DedupedIsNotBlank(raw.secretBindings);
    DedupedIsNotBlank(stored.secretBindings);
    if raw.extensions.Some? {
      NormalExtensionsAreNormal(raw.extensions.value);
      NormalExtensionsAreFixed(stored.extensions.value);
    } else {
      assert !IsBlank(DEFAULT_EXTENSIONS[0]) by {
        assert DEFAULT_EXTENSIONS[0][0] == '.';
      }
      NormalOfNamedIsNotEmpty(DEFAULT_EXTENSIONS, 0);
      NormalExtensionsAreNormal(DEFAULT_EXTENSIONS);
    }
  }

  // ---- The store ----

  datatype VersionState = Draft | Active | Superseded

  datatype Version = Version(number: nat, state: VersionState, config: Config, previous: Option<nat>)

  datatype ConfigError = InvalidConfiguration | StaleRevision | InvalidReference | NotFound

  datatype Result = Stored(id: nat) | Rejected(error: ConfigError)

  /** A version's id is its place in the table; rows are never removed. */
  datatype Store = Store(versions: seq<Version>, active: Option<nat>, revision: nat)

  function MaxNumber(versions: seq<Version>): nat {
    if versions == [] then 0
    else
      var n := |versions| - 1;
      var before := MaxNumber(versions[..n]);
      if versions[n].number > before then versions[n].number else before
  }

  /** Supersede the current version, if there is another one, and point at the record. */
  function Activate(s: Store, id: nat): Store
    requires id < |s.versions|
  {
    var retired :=
      if s.active.Some? && s.active.value < |s.versions| && s.active.value != id
      then s.versions[s.active.value := s.versions[s.active.value].(state := Superseded)]
      else s.versions;
    Store(retired[id := retired[id].(state := Active)], Some(id), s.revision + 1)
  }

  function AddDraft(s: Store, config: Config): Store {
    s.(versions := s.versions + [Version(MaxNumber(s.versions) + 1, Draft, config, s.active)])
  }

  function CreateSpec(resolve: Schema, s: Store, raw: Config, expected: nat, activate: bool, referencesValid: bool): (Result, Store) {
    var config := Normalise(resolve, raw);
    if config.None? then (Rejected(InvalidConfiguration), s)
    else if s.revision != expected then (Rejected(StaleRevision), s)
    else if !referencesValid then (Rejected(InvalidReference), s)
    else
      var id := |s.versions|;
      var added := AddDraft(s, config.value);
      (Stored(id), if activate then Activate(added, id) else added.(revision := s.revision + 1))
  }

  function ActivateSpec(resolve: Schema, s: Store, id: nat, expected: nat, referencesValid: bool): (Result, Store) {
    if s.revision != expected then (Rejected(StaleRevision), s)
    else if id >= |s.versions| then (Rejected(NotFound), s)
    else if Normalise(resolve, s.versions[id].config).None? then (Rejected(InvalidConfiguration), s)
    else if !referencesValid then (Rejected(InvalidReference), s)
    else (Stored(id), Activate(s, id))
  }

  function RollbackSpec(resolve: Schema, s: Store, source: nat, expected: nat, referencesValid: bool): (Result, Store) {
    if source >= |s.versions| then (Rejected(NotFound), s)
    else CreateSpec(resolve, s, s.versions[source].config, expected, true, referencesValid)
  }

  class TenantConfigurations {
    const resolve: Schema
    var versions: seq<Version>
    var active: Option<nat>
    var revision: nat

    ghost function Value(): Store
      reads this
    {
      Store(versions, active, revision)
    }

    /** A tenant starts with one active version, number 1, whose content nothing has validated: the
        dumped defaults, or what the migration put together. */
    constructor (resolve: Schema, config: Config)
      ensures this.resolve == resolve
      ensures Value() == Initial(config)
    {
      this.resolve := resolve;
      versions := [Version(1, Active, config, None)];
      active := Some(0);
      revision := 1;
    }

    method CreateVersion(raw: Config, expected: nat, activate: bool, referencesValid: bool) returns (r: Result)
      modifies this
      ensures (r, Value()) == CreateSpec(resolve, old(Value()), raw, expected, activate, referencesValid)
      ensures var config := Normalise(resolve, raw);
              && (r == Rejected(InvalidConfiguration) <==> config.None?)
              && (r == Rejected(StaleRevision) <==> config.Some? && old(revision) != expected)
              && (r == Rejected(InvalidReference) <==> config.Some? && old(revision) == expected && !referencesValid)
              && (r.Rejected? ==> versions == old(versions) && active == old(active) && revision == old(revision))
              && (r.Stored? ==>
                    && r.id == |old(versions)| && |versions| == r.id + 1 && revision == old(revision) + 1
                    && versions[r.id].config == config.value && versions[r.id].previous == old(active)
                    && versions[r.id].state == (if activate then Active else Draft)
                    && active == (if activate then Some(r.id) else old(active)))
    {
      var config := Normalise(resolve, raw);
      if config.None? {
        return Rejected(InvalidConfiguration);
      }
      if revision != expected {
        return Rejected(StaleRevision);
      }
      if !referencesValid {
        return Rejected(InvalidReference);
      }
      var next := NextNumber();
      versions := versions + [Version(next, Draft, config.value, active)];
      if activate {
        MakeActive(|versions| - 1);
      } else {
        revision := revision + 1;
      }
      r := Stored(|versions| - 1);
    }

    method NextNumber() returns (next: nat)
      ensures next == MaxNumber(versions) + 1
    {
      next := 1;
      for i := 0 to |versions|
        invariant next == MaxNumber(versions[..i]) + 1
      {
        assert versions[..i + 1][..i] == versions[..i];
        if versions[i].number >= next {
          next := versions[i].number + 1;
        }
      }
      assert versions[..|versions|] == versions;
    }

    method ActivateVersion(id: nat, expected: nat, referencesValid: bool) returns (r: Result)
      modifies this
      ensures (r, Value()) == ActivateSpec(resolve, old(Value()), id, expected, referencesValid)
      ensures (r == Rejected(StaleRevision) <==> old(revision) != expected)
      ensures (r == Rejected(NotFound) <==> old(revision) == expected && id >= |old(versions)|)
      ensures r.Rejected? ==> versions == old(versions) && active == old(active) && revision == old(revision)
      ensures r.Stored? ==>
                && r.id == id < |versions| == |old(versions)| && active == Some(id) && revision == old(revision) + 1
                && versions[id] == old(versions)[id].(state := Active)
    {
      if revision != expected {
        return Rejected(StaleRevision);
      }
      if id >= |versions| {
        return Rejected(NotFound);
      }
      if Normalise(resolve, versions[id].config).None? {
        return Rejected(InvalidConfiguration);
      }
      if !referencesValid {
        return Rejected(InvalidReference);
      }
      MakeActive(id);
      r := Stored(id);
    }

    method Rollback(source: nat, expected: nat, referencesValid: bool) returns (r: Result)
      modifies this
      ensures (r, Value()) == RollbackSpec(resolve, old(Value()), source, expected, referencesValid)
    {
      if source >= |versions| {
        return Rejected(NotFound);
      }
      r := CreateVersion(versions[source].config, expected, true, referencesValid);
    }

    method MakeActive(id: nat)
      requires id < |versions|
      modifies this
      ensures Value() == Activate(old(Value()), id)
      ensures active == Some(id) && revision == old(revision) + 1 && |versions| == |old(versions)|
      ensures forall i :: 0 <= i < |versions| ==>
                versions[i] == old(versions)[i].(state := if i == id then Active
                                                          else if old(active) == Some(i) then Superseded
                                                          else old(versions)[i].state)
    {
      if active.Some? && active.value < |versions| && active.value != id {
        versions := versions[active.value := versions[active.value].(state := Superseded)];
      }
      versions := versions[id := versions[id].(state := Active)];
      active := Some(id);
      revision := revision + 1;
    }
  }

  // ---- Whole runs ----

  function Initial(config: Config): Store {
    Store([Version(1, Active, config, None)], Some(0), 1)
  }

  datatype Call =
    | Create(raw: Config, expected: nat, activate: bool, referencesValid: bool)
    | ActivateCall(id: nat, expected: nat, referencesValid: bool)
    | Rollback(source: nat, expected: nat, referencesValid: bool)

  function Apply(resolve: Schema, s: Store, c: Call): (Result, Store) {
    match c
    case Create(raw, expected, activate, ok) => CreateSpec(resolve, s, raw, expected, activate, ok)
    case ActivateCall(id, expected, ok) => ActivateSpec(resolve, s, id, expected, ok)
    case Rollback(source, expected, ok) => RollbackSpec(resolve, s, source, expected, ok)
  }

  function Run(resolve: Schema, first: Config, calls: seq<Call>): Store {
    if calls == [] then Initial(first)
    else Apply(resolve, Run(resolve, first, calls[..|calls| - 1]), calls[|calls| - 1]).1
  }

  /** Exactly one version is active and it is the tenant's; numbers are 1..n. */
  predicate Consistent(s: Store) {
    && s.active.Some? && s.active.value < |s.versions|
    && (forall i :: 0 <= i < |s.versions| ==>
          && s.versions[i].number == i + 1
          && (s.versions[i].state == Active <==> s.active == Some(i)))
  }

  lemma {:induction false} MaxOfNumbered(versions: seq<Version>)
    requires forall i :: 0 <= i < |versions| ==> versions[i].number == i + 1
    ensures MaxNumber(versions) == |versions|
  {
    if versions != [] {
      MaxOfNumbered(versions[..|versions| - 1]);
    }
  }

  /** Content stored once stays as it is. */
  predicate Extends(before: Store, after: Store) {
    && |before.versions| <= |after.versions|
    && before.revision <= after.revision
    && forall i :: 0 <= i < |before.versions| ==>
         after.versions[i].config == before.versions[i].config && after.versions[i].number == before.versions[i].number
  }

  /** One version more, numbered last, with the given content. */
  predicate Adds(before: Store, after: Store, config: Config) {
    && Extends(before, after)
    && |after.versions| == |before.versions| + 1
    && after.versions[|before.versions|].number == |before.versions| + 1
    && after.versions[|before.versions|].config == config && after.versions[|before.versions|].previous == before.active
  }

  lemma ActivateKeepsConsistent(s: Store, id: nat)
    requires Consistent(s) && id < |s.versions|
    ensures Consistent(Activate(s, id)) && Extends(s, Activate(s, id))
    ensures |Activate(s, id).versions| == |s.versions|
  {
  }

  /** A version that was active once is never a draft again. */
  lemma {:induction false} OnceActiveNeverDraft(resolve: Schema, first: Config, calls: seq<Call>, k: nat, id: nat)
    requires k <= |calls|
    requires id < |Run(resolve, first, calls[..k]).versions| && Run(resolve, first, calls[..k]).versions[id].state != Draft
    ensures id < |Run(resolve, first, calls).versions| && Run(resolve, first, calls).versions[id].state != Draft
  {
    if k == |calls| {
      assert calls[..k] == calls;
    } else {
      var n := |calls| - 1;
      assert calls[..n][..k] == calls[..k];
      OnceActiveNeverDraft(resolve, first, calls[..n], k, id);
      StepKeepsPublished(resolve, Run(resolve, first, calls[..n]), calls[n], id);
    }
  }

  lemma StepKeepsPublished(resolve: Schema, s: Store, c: Call, id: nat)
    requires id < |s.versions| && s.versions[id].state != Draft
    ensures var after := Apply(resolve, s, c).1;
            id < |after.versions| && after.versions[id].state != Draft
  {
  }

  lemma AddDraftKeepsConsistent(s: Store, config: Config)
    requires Consistent(s)
    ensures Consistent(AddDraft(s, config)) && Adds(s, AddDraft(s, config), config)
  {
    MaxOfNumbered(s.versions);
  }

  lemma CreateKeepsConsistent(resolve: Schema, s: Store, raw: Config, expected: nat, activate: bool, ok: bool)
    requires Consistent(s)
    ensures var (r, after) := CreateSpec(resolve, s, raw, expected, activate, ok);
            && Consistent(after) && Extends(s, after)
            && (r.Stored? <==> Normalise(resolve, raw).Some? && expected == s.revision && ok)
            && (r.Stored? ==> after.revision == s.revision + 1 && Adds(s, after, Normalise(resolve, raw).value))
            && (r.Rejected? ==> after == s)
  {
    var config := Normalise(resolve, raw);
    if config.Some? {
      AddDraftKeepsConsistent(s, config.value);
      ActivateKeepsConsistent(AddDraft(s, config.value), |s.versions|);
    }
  }

  /** Every call: a success quotes the current revision and raises it by one, a rejection changes
      nothing, and the store stays consistent. */
  lemma StepKeepsConsistent(resolve: Schema, s: Store, c: Call)
    requires Consistent(s)
    ensures var (r, after) := Apply(resolve, s, c);
            && Consistent(after) && Extends(s, after)
            && (r.Stored? ==> c.expected == s.revision && after.revision == s.revision + 1)
            && (r.Rejected? ==> after == s)
  {
    match c {
      case Create(raw, expected, activate, ok) =>
        CreateKeepsConsistent(resolve, s, raw, expected, activate, ok);
      case ActivateCall(id, expected, ok) =>
        if id < |s.versions| {
          ActivateKeepsConsistent(s, id);
        }
      case Rollback(source, expected, ok) =>
        if source < |s.versions| {
          CreateKeepsConsistent(resolve, s, s.versions[source].config, expected, true, ok);
        }
    }
  }

  /** Over any run, from whatever first configuration, the store is consistent. */
  lemma {:induction false} HistoryIsConsistent(resolve: Schema, first: Config, calls: seq<Call>)
    ensures Consistent(Run(resolve, first, calls))
  {
    if calls != [] {
      var n := |calls| - 1;
      HistoryIsConsistent(resolve, first, calls[..n]);
      StepKeepsConsistent(resolve, Run(resolve, first, calls[..n]), calls[n]);
    }
  }

  /** And whatever any earlier moment of the run had stored is still there, unchanged. */
  lemma {:induction false} HistoryIsImmutable(resolve: Schema, first: Config, calls: seq<Call>, k: nat)
    requires k <= |calls|
    ensures Extends(Run(resolve, first, calls[..k]), Run(resolve, first, calls))
  {
    if k == |calls| {
      assert calls[..k] == calls;
    } else {
      var n := |calls| - 1;
      HistoryIsImmutable(resolve, first, calls[..n], k);
      assert calls[..n][..k] == calls[..k];
      HistoryIsConsistent(resolve, first, calls[..n]);
      StepKeepsConsistent(resolve, Run(resolve, first, calls[..n]), calls[n]);
    }
  }

  predicate Succeeds(resolve: Schema, first: Config, calls: seq<Call>, k: nat)
    requires k < |calls|
  {
    Apply(resolve, Run(resolve, first, calls[..k]), calls[k]).0.Stored?
  }

  /** Optimistic locking: of two calls that quote the same revision at most one succeeds. */
  lemma QuotedRevisionSucceedsOnce(resolve: Schema, first: Config, calls: seq<Call>, j: nat, k: nat)
    requires j < k < |calls|
    requires Succeeds(resolve, first, calls, j) && Succeeds(resolve, first, calls, k)
    ensures calls[j].expected < calls[k].expected
  {
    HistoryIsConsistent(resolve, first, calls[..j]);
    HistoryIsConsistent(resolve, first, calls[..k]);
    StepKeepsConsistent(resolve, Run(resolve, first, calls[..j]), calls[j]);
    StepKeepsConsistent(resolve, Run(resolve, first, calls[..k]), calls[k]);
    HistoryIsImmutable(resolve, first, calls[..k], j + 1);
    assert calls[..k][..j + 1] == calls[..j + 1] && calls[..j + 1][..j] == calls[..j];
  }

  // ---- What a rollback stores ----

  /** What one call adds to Named. */
  function AddedName(resolve: Schema, first: Config, s: Store, c: Call): seq<bool> {
    if Apply(resolve, s, c).0.Rejected? then []
    else match c
      case Create(raw, _, _, _) => [raw.extensions.Some?]
      case ActivateCall(_, _, _) => []
      case Rollback(source, _, _) => [source > 0 || first.extensions.Some?]
  }

  /** For each version of a run, whether it was made from a configuration that named its extensions;
      a rollback takes what is stored, and only the first version may be stored without them. The
      first version was not validated: it counts when validation would leave it as it is. */
  ghost function Named(resolve: Schema, first: Config, calls: seq<Call>): seq<bool> {
    if calls == [] then [IsSettled(resolve, first)]
    else
      var n := |calls| - 1;
      Named(resolve, first, calls[..n]) + AddedName(resolve, first, Run(resolve, first, calls[..n]), calls[n])
  }

  /** The versions of a run, by where they come from. */
  ghost predicate Traced(resolve: Schema, first: Config, versions: seq<Version>, named: seq<bool>) {
    && |named| == |versions| > 0 && versions[0].config == first
    && (forall id :: 0 <= id < |versions| ==> (named[id] <==> IsSettled(resolve, versions[id].config)))
    && (forall id :: 0 < id < |versions| ==>
          versions[id].config.extensions.Some? && Normalise(resolve, versions[id].config).Some?)
  }

  lemma StoredIsSettledIffNamed(resolve: Schema, raw: Config)
    requires FillsInOnce(resolve) && Normalise(resolve, raw).Some?
    ensures var stored := Normalise(resolve, raw).value;
            && stored.extensions.Some? && Normalise(resolve, stored).Some?
            && (IsSettled(resolve, stored) <==> raw.extensions.Some?)
  {
    RevalidationIsIdentityIffNamed(resolve, raw);
    SettledIffUnchanged(resolve, Normalise(resolve, raw).value);
    SecondValidationSettles(resolve, raw);
  }

  lemma AddedIsTraced(resolve: Schema, first: Config, before: Store, after: Store, named: seq<bool>, config: Config, name: bool)
    requires Traced(resolve, first, before.versions, named) && Adds(before, after, config)
    requires config.extensions.Some? && Normalise(resolve, config).Some?
    requires name <==> IsSettled(resolve, config)
    ensures Traced(resolve, first, after.versions, named + [name])
  {
    var n := |before.versions|;
    forall id | 0 <= id <= n ensures (named + [name])[id] <==> IsSettled(resolve, after.versions[id].config) {
      assert id < n ==> after.versions[id].config == before.versions[id].config;
    }
    forall id | 0 < id <= n
      ensures after.versions[id].config.extensions.Some? && Normalise(resolve, after.versions[id].config).Some?
    {
      assert id < n ==> after.versions[id].config == before.versions[id].config;
    }
  }

  lemma StepIsTraced(resolve: Schema, first: Config, s: Store, named: seq<bool>, c: Call)
    requires FillsInOnce(resolve) && Consistent(s) && Traced(resolve, first, s.versions, named)
    ensures Traced(resolve, first, Apply(resolve, s, c).1.versions, named + AddedName(resolve, first, s, c))
  {
    var after := Apply(resolve, s, c).1;
    StepKeepsConsistent(resolve, s, c);
    match c {
      case Create(raw, expected, activate, ok) =>
        CreateKeepsConsistent(resolve, s, raw, expected, activate, ok);
        if Apply(resolve, s, c).0.Stored? {
          StoredIsSettledIffNamed(resolve, raw);
          AddedIsTraced(resolve, first, s, after, named, Normalise(resolve, raw).value, raw.extensions.Some?);
        }
      case ActivateCall(id, expected, ok) =>
        if id < |s.versions| {
          ActivateKeepsConsistent(s, id);
        }
      case Rollback(source, expected, ok) =>
        if source < |s.versions| {
          var raw := s.versions[source].config;
          CreateKeepsConsistent(resolve, s, raw, expected, true, ok);
          if Apply(resolve, s, c).0.Stored? {
            StoredIsSettledIffNamed(resolve, raw);
          AddedIsTraced(resolve, first, s, after, named, Normalise(resolve, raw).value, raw.extensions.Some?);
          }
        }
    }
  }

  /** Over any run a version is a fixed point of validation if and only if it was made from a
      configuration that named its extensions, and only the first can be refused by validation. */
  lemma {:induction false} HistoryIsTraced(resolve: Schema, first: Config, calls: seq<Call>)
    requires FillsInOnce(resolve)
    ensures Traced(resolve, first, Run(resolve, first, calls).versions, Named(resolve, first, calls))
  {
    if calls != [] {
      var n := |calls| - 1;
      var s := Run(resolve, first, calls[..n]);
      HistoryIsTraced(resolve, first, calls[..n]);
      HistoryIsConsistent(resolve, first, calls[..n]);
      StepIsTraced(resolve, first, s, Named(resolve, first, calls[..n]), calls[n]);
    }
  }

  /** A rollback succeeds exactly for a version of the tenant at the current revision, unless that is
      a first version which validation refuses. It adds and activates a new version, numbered last,
      and that has its source's very configuration if and only if the source was made from one that
      named its extensions. */
  lemma RollbackRestoresSourceIffNamed(resolve: Schema, first: Config, calls: seq<Call>, source: nat, expected: nat, ok: bool)
    requires FillsInOnce(resolve)
    ensures var s := Run(resolve, first, calls);
            var (r, after) := RollbackSpec(resolve, s, source, expected, ok);
            && (r.Stored? <==>
                  && source < |s.versions| && s.revision == expected && ok
                  && (source == 0 ==> Normalise(resolve, first).Some?))
            && (r.Stored? ==>
                  && after.active == Some(|s.versions|)
                  && Extends(s, after) && |after.versions| == |s.versions| + 1
                  && after.versions[|s.versions|].number == |s.versions| + 1
                  && |Named(resolve, first, calls)| == |s.versions|
                  && (after.versions[|s.versions|].config == s.versions[source].config
                      <==> Named(resolve, first, calls)[source]))
  {
    var s := Run(resolve, first, calls);
    HistoryIsConsistent(resolve, first, calls);
    HistoryIsTraced(resolve, first, calls);
    if source < |s.versions| {
      var raw := s.versions[source].config;
      CreateKeepsConsistent(resolve, s, raw, expected, true, ok);
      SettledIffUnchanged(resolve, raw);
    }
  }

  // ---- What a rollback keeps in any case ----

  function Members(values: seq<string>): set<string> {
    set x | x in values
  }

  function Allowed(c: Config): set<string> {
    if c.extensions.Some? then Members(c.extensions.value) else {}
  }

  lemma DefaultsAreNormal()
    ensures NormalEach(DEFAULT_EXTENSIONS)
  {
    forall i | 0 <= i < |DEFAULT_EXTENSIONS|
      ensures !IsBlank(DEFAULT_EXTENSIONS[i]) && NormalExtension(DEFAULT_EXTENSIONS[i]) == DEFAULT_EXTENSIONS[i]
    {
      var s := DEFAULT_EXTENSIONS[i];
      assert s[0] == '.';
      assert Lower(s) == s;
    }
  }

  lemma NormalEachKeepsMembers(values: seq<string>)
    requires NormalEach(values)
    ensures Members(NormalExtensions(values)) == Members(values)
  {
    NormalExtensionsMembers(values);
    forall x | x in values ensures x in NormalExtensions(values) {
      var i :| 0 <= i < |values| && values[i] == x;
      assert NormalExtension(values[i]) == x;
    }
  }

  /** A second validation may change what is stored, but not what it allows. */
  lemma RevalidationKeepsSettings(resolve: Schema, raw: Config)
    requires FillsInOnce(resolve) && Normalise(resolve, raw).Some?
    ensures var once := Normalise(resolve, raw).value;
            && Normalise(resolve, once).Some?
            && var twice := Normalise(resolve, once).value;
               && Allowed(twice) == Allowed(once)
               && twice.secretBindings == once.secretBindings && twice.rest == once.rest
  {
    var once := Normalise(resolve, raw).value;
    SecondValidationSettles(resolve, raw);
    DedupeIsFixed(raw.secretBindings);
    DedupeIsFixed(once.secretBindings);
    if raw.extensions.Some? {
      NormalExtensionsAreNormal(raw.extensions.value);
    } else {
      DefaultsAreNormal();
    }
    NormalEachKeepsMembers(once.extensions.value);
  }

  /** What a tenant works with is the validated content of its active version. Whatever a rollback
      stores, it allows the same extensions as its source and agrees with it in everything else. */
  lemma RollbackKeepsSettings(resolve: Schema, s: Store, source: nat, expected: nat, ok: bool)
    requires FillsInOnce(resolve) && Consistent(s)
    ensures var (r, after) := RollbackSpec(resolve, s, source, expected, ok);
            r.Stored? ==>
              && r.id < |after.versions| && after.active == Some(r.id) && source < |s.versions|
              && var was := Normalise(resolve, s.versions[source].config);
                 var works := Normalise(resolve, after.versions[r.id].config);
                 && was.Some? && works.Some? && Allowed(works.value) == Allowed(was.value)
                 && works.value.secretBindings == was.value.secretBindings && works.value.rest == was.value.rest
  {
    if source < |s.versions| {
      var raw := s.versions[source].config;
      CreateKeepsConsistent(resolve, s, raw, expected, true, ok);
      if Normalise(resolve, raw).Some? {
        RevalidationKeepsSettings(resolve, raw);
      }
    }
  }

  // ---- The first version of a new tenant ----

  lemma {:induction false} LessAt(a: string, b: string, k: nat)
    requires k < |a| && k < |b| && a[..k] == b[..k] && a[k] < b[k]
    ensures Less(a, b)
  {
    if k > 0 {
      assert a[0] == a[..k][0] == b[..k][0] == b[0];
      assert a[1..][..k - 1] == a[..k][1..] && b[1..][..k - 1] == b[..k][1..];
      LessAt(a[1..], b[1..], k - 1);
    }
  }

  lemma SortedDefaultsAscend()
    ensures Ascending(SORTED_DEFAULTS)
  {
    var d := SORTED_DEFAULTS;
    LessAt(d[0], d[1], 1);
    LessAt(d[1], d[2], 1);
    LessAt(d[2], d[3], 1);
    LessAt(d[3], d[4], 2);
    LessAt(d[4], d[5], 1);
    LessAt(d[5], d[6], 1);
    ChainAscends(d);
  }

  lemma {:induction false} ChainAscends(values: seq<string>)
    requires forall i :: 0 < i < |values| ==> Less(values[i - 1], values[i])
    ensures Ascending(values)
  {
    if |values| > 1 {
      var n := |values| - 1;
      ChainAscends(values[..n]);
      forall i | 0 <= i < n ensures Less(values[i], values[n]) {
        if i < n - 1 {
          assert Less(values[..n][i], values[..n][n - 1]);
          LessIsTransitive(values[i], values[n - 1], values[n]);
        }
      }
    }
  }

  lemma NoMembersIffEmpty(values: seq<string>)
    ensures Members(values) == {} <==> values == []
  {
    assert values != [] ==> values[0] in Members(values);
  }

  lemma {:induction false} AscendingIsUnique(a: seq<string>, b: seq<string>)
    requires Ascending(a) && Ascending(b) && Members(a) == Members(b)
    ensures a == b
  {
    NoMembersIffEmpty(a);
    NoMembersIffEmpty(b);
    if a != [] {
      FirstIsLeast(a, b);
      FirstIsLeast(b, a);
      LessIsTotal(a[0], b[0]);
      assert a == [a[0]] + a[1..] && b == [b[0]] + b[1..];
      TailMembers(a);
      TailMembers(b);
      AscendingIsUnique(a[1..], b[1..]);
    }
  }

  lemma FirstIsLeast(a: seq<string>, b: seq<string>)
    requires Ascending(a) && a != [] && b != [] && Members(a) == Members(b)
    ensures a[0] == b[0] || Less(a[0], b[0])
  {
    assert b[0] in Members(b);
  }

  lemma TailMembers(a: seq<string>)
    requires Ascending(a) && a != []
    ensures Members(a[1..]) == Members(a) - {a[0]}
  {
    forall i | 0 < i < |a| ensures a[i] != a[0] {
      LessIsTotal(a[0], a[i]);
    }
  }

  lemma DefaultsSorted()
    ensures NormalExtensions(DEFAULT_EXTENSIONS) == SORTED_DEFAULTS
  {
    DefaultsAreNormal();
    NormalEachKeepsMembers(DEFAULT_EXTENSIONS);
    NormalExtensionsAreNormal(DEFAULT_EXTENSIONS);
    SortedDefaultsAscend();
    AscendingIsUnique(NormalExtensions(DEFAULT_EXTENSIONS), SORTED_DEFAULTS);
  }

  lemma RollbackAdds(resolve: Schema, s: Store, source: nat, config: Config)
    requires Consistent(s) && source < |s.versions| && Normalise(resolve, s.versions[source].config) == Some(config)
    ensures var after := Apply(resolve, s, Rollback(source, s.revision, true)).1;
            Consistent(after) && Adds(s, after, config) && after.revision == s.revision + 1
  {
    CreateKeepsConsistent(resolve, s, s.versions[source].config, s.revision, true, true);
  }

  /** A new tenant's first version is the dumped defaults. Rolling back to it is accepted and stores
      the same extensions in another order, so under another hash. */
  lemma RollbackToDefaultsChangesThem(resolve: Schema, rest: string)
    requires resolve(rest) == Some(rest)
    ensures var first := Config(Some(DEFAULT_EXTENSIONS), [], rest);
            var s := Run(resolve, first, [Rollback(0, 1, true)]);
            && |s.versions| == 2
            && s.versions[1].config == Config(Some(SORTED_DEFAULTS), [], rest)
            && s.versions[1].config != s.versions[0].config == first
  {
    var first := Config(Some(DEFAULT_EXTENSIONS), [], rest);
    DefaultsSorted();
    assert [Rollback(0, 1, true)][..0] == [];
    RollbackAdds(resolve, Initial(first), 0, Config(Some(SORTED_DEFAULTS), [], rest));
    assert DEFAULT_EXTENSIONS[0] != SORTED_DEFAULTS[0] by {
      assert DEFAULT_EXTENSIONS[0][1] == 'p' && SORTED_DEFAULTS[0][1] == 'd';
    }
  }

  lemma RollbackToOmittedStoresDefaults(resolve: Schema, rest: string)
    requires resolve(rest) == Some(rest)
    ensures var s := Run(resolve, Config(None, [], rest), [Rollback(0, 1, true)]);
            Consistent(s) && |s.versions| == 2 && s.revision == 2
            && s.versions[1].config == Config(Some(DEFAULT_EXTENSIONS), [], rest)
  {
    assert [Rollback(0, 1, true)][..0] == [];
    RollbackAdds(resolve, Initial(Config(None, [], rest)), 0, Config(Some(DEFAULT_EXTENSIONS), [], rest));
  }

  /** A migrated tenant's first version may omit the list, and what a rollback to it stores is not
      settled either: a rollback to that one differs again. */
  lemma MigratedDefaultsChangeTwice(resolve: Schema, rest: string)
    requires resolve(rest) == Some(rest)
    ensures var s := Run(resolve, Config(None, [], rest), [Rollback(0, 1, true), Rollback(1, 2, true)]);
            && |s.versions| == 3
            && s.versions[1].config == Config(Some(DEFAULT_EXTENSIONS), [], rest)
            && s.versions[2].config == Config(Some(SORTED_DEFAULTS), [], rest)
  {
    var calls := [Rollback(0, 1, true), Rollback(1, 2, true)];
    assert calls[..1] == [Rollback(0, 1, true)];
    RollbackToOmittedStoresDefaults(resolve, rest);
    var s := Run(resolve, Config(None, [], rest), [Rollback(0, 1, true)]);
    DefaultsSorted();
    RollbackAdds(resolve, s, 1, Config(Some(SORTED_DEFAULTS), [], rest));
  }
}
