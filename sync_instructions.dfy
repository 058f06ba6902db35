/** Synchronisation of the code's character prompts into the instruction
    store: the code table is the source of truth, the store holds runtime
    overrides, and a deliberate admin override is only replaced when the
    sync is forced. */
module SyncInstructions {
  import opened Wrappers
  import Text
  import Characters
  import opened InstructionStore

  // ---------------------------------------------------------------------
  // compareVersions
  // ---------------------------------------------------------------------

  /** `s.split(sep)`: the pieces between separators, empty pieces kept. */
  function Split(s: string, sep: char): (parts: seq<string>)
    ensures |parts| >= 1
    ensures forall k :: 0 <= k < |parts| ==> sep !in parts[k]
  {
    if |s| == 0 then [""]
    else
      var rest := Split(s[1..], sep);
      if s[0] == sep then [""] + rest
      else [[s[0]] + rest[0]] + rest[1..]
  }

  /** Joining the pieces back with the separator gives the string again. */
  lemma {:induction false} SplitJoin(s: string, sep: char)
    ensures Text.Join(Split(s, sep), [sep]) == s
  {
    if |s| > 0 {
      var rest := Split(s[1..], sep);
      SplitJoin(s[1..], sep);
      if s[0] == sep {
        assert Split(s, sep)[1..] == rest;
      } else {
        var parts := Split(s, sep);
        if |rest| == 1 {
          assert parts == [[s[0]] + rest[0]];
        } else {
          assert parts[1..] == rest[1..];
          assert Text.Join(rest, [sep]) == rest[0] + [sep] + Text.Join(rest[1..], [sep]);
        }
      }
    }
  }

  /** `Number(piece)` for a version component: a digit string is its value,
      the empty piece is 0, anything else is NaN (`None`). */
  function ComponentValue(piece: string): (v: Option<int>)
    ensures v.Some? ==> v.value >= 0
    ensures Text.AllDigits(piece) <==> v.Some?
  {
    if Text.AllDigits(piece) then Some(Text.DigitsValue(piece)) else None
  }

  /** `v.split('.').map(Number)`. */
  function ParseVersion(v: string): (parts: seq<Option<int>>)
    ensures |parts| == |Split(v, '.')|
  {
    var pieces := Split(v, '.');
    seq(|pieces|, k requires 0 <= k < |pieces| => ComponentValue(pieces[k]))
  }

  /** `parts[i]`: past the end it is `undefined`, which like NaN compares
      false with everything. */
  function Component(parts: seq<Option<int>>, i: nat): Option<int>
  {
    if i < |parts| then parts[i] else None
  }

  /** `a > b` on numbers that may be NaN. */
  predicate Greater(a: Option<int>, b: Option<int>)
  {
    a.Some? && b.Some? && a.value > b.value
  }

  /** The comparison from component `i` on, over the first three. */
  function CompareFrom(p1: seq<Option<int>>, p2: seq<Option<int>>, i: nat): (r: int)
    ensures r == -1 || r == 0 || r == 1
    decreases 3 - i
  {
    if i >= 3 then 0
    else if Greater(Component(p1, i), Component(p2, i)) then 1
    else if Greater(Component(p2, i), Component(p1, i)) then -1
    else CompareFrom(p1, p2, i + 1)
  }

  function Compare(p1: seq<Option<int>>, p2: seq<Option<int>>): int
  {
    CompareFrom(p1, p2, 0)
  }

  /** `compareVersions`: 1, -1 or 0 from the first of the first three
      components where one version is greater. */
  method CompareVersions(v1: string, v2: string) returns (r: int)
    ensures r == Compare(ParseVersion(v1), ParseVersion(v2))
  {
    var parts1 := ParseVersion(v1);
    var parts2 := ParseVersion(v2);
    for i := 0 to 3
      invariant CompareFrom(parts1, parts2, 0) == CompareFrom(parts1, parts2, i)
    {
      if Greater(Component(parts1, i), Component(parts2, i)) {
        return 1;
      }
      if Greater(Component(parts2, i), Component(parts1, i)) {
        return -1;
      }
    }
    return 0;
  }

  /** A version compares equal to itself. */
  lemma {:induction false} CompareReflexive(p: seq<Option<int>>, i: nat)
    ensures CompareFrom(p, p, i) == 0
    decreases 3 - i
  {
    if i < 3 {
      CompareReflexive(p, i + 1);
    }
  }

  /** Swapping the arguments negates the answer. */
  lemma {:induction false} CompareAntisymmetric(p1: seq<Option<int>>, p2: seq<Option<int>>, i: nat)
    ensures CompareFrom(p1, p2, i) == -CompareFrom(p2, p1, i)
    decreases 3 - i
  {
    if i < 3 {
      CompareAntisymmetric(p1, p2, i + 1);
    }
  }

  /** Neither component is greater: equal numbers, or a NaN on either side. */
  predicate Undecided(a: Option<int>, b: Option<int>)
  {
    !Greater(a, b) && !Greater(b, a)
  }

  /** The answer is 1 exactly when some component among the first three is
      greater and every earlier one leaves the comparison undecided. */
  lemma {:induction false} CompareDecided(p1: seq<Option<int>>, p2: seq<Option<int>>, i: nat)
    requires i <= 3
    ensures CompareFrom(p1, p2, i) == 1 <==>
      exists k :: i <= k < 3 && Greater(Component(p1, k), Component(p2, k))
                  && (forall j :: i <= j < k ==> Undecided(Component(p1, j), Component(p2, j)))
    decreases 3 - i
  {
    if i < 3 {
      CompareDecided(p1, p2, i + 1);
      if CompareFrom(p1, p2, i) == 1 && !Greater(Component(p1, i), Component(p2, i)) {
        var k :| i + 1 <= k < 3 && Greater(Component(p1, k), Component(p2, k))
                 && (forall j :: i + 1 <= j < k ==> Undecided(Component(p1, j), Component(p2, j)));
        assert forall j :: i <= j < k ==> Undecided(Component(p1, j), Component(p2, j));
      }
    }
  }

  /** The first three components are numbers. */
  predicate Numeric(p: seq<Option<int>>)
  {
    |p| >= 3 && p[0].Some? && p[1].Some? && p[2].Some?
  }

  /** On versions whose first three components are numbers, "greater" is
      transitive. */
  lemma {:induction false} CompareTransitive(a: seq<Option<int>>, b: seq<Option<int>>, c: seq<Option<int>>, i: nat)
    requires Numeric(a) && Numeric(b) && Numeric(c)
    requires CompareFrom(a, b, i) == 1 && CompareFrom(b, c, i) == 1
    ensures CompareFrom(a, c, i) == 1
    decreases 3 - i
  {
    if a[i] == b[i] && b[i] == c[i] {
      CompareTransitive(a, b, c, i + 1);
    }
  }

  /** With a NaN component "greater" is not transitive: x.2.0 > 1.1.0 and
      1.1.0 > 0.x.5, yet x.2.0 < 0.x.5. */
  lemma NaNBreaksTransitivity()
    ensures var a, b, c := [None, Some(2), Some(0)], [Some(1), Some(1), Some(0)], [Some(0), None, Some(5)];
      Compare(a, b) == 1 && Compare(b, c) == 1 && Compare(a, c) == -1
  {
  }

  // ---------------------------------------------------------------------
  // Sync decisions
  // ---------------------------------------------------------------------

  datatype Action = UpToDate | Synced | SkippedOverride | Error

  /** `SyncResult`; `codeVersion` is `None` when the character declares no
      version, `customVersion` the stored `updatedAt`. */
  datatype SyncResult = SyncResult(
    characterId: string,
    action: Action,
    codeVersion: Option<string>,
    customVersion: Option<int>,
    message: string)

  /** How a template literal shows an optional string. */
  function Shown(v: Option<string>): string
  {
    match v
    case Some(s) => s
    case None => "undefined"
  }

  /** `codeDate > customDate`: an undefined `lastUpdated` is an invalid
      date, and an invalid date is never greater. */
  predicate Outdated(c: Characters.Character, s: StoredInstruction)
  {
    c.lastUpdated.Some? && c.lastUpdated.value > s.updatedAt
  }

  /** The sync's test for a deliberate override: a truthy `updatedBy` that
      is neither `system` nor `auto-sync`. */
  predicate DeliberateOverride(s: StoredInstruction)
  {
    s.updatedBy.Some? && s.updatedBy.value != "" && s.updatedBy.value != "system"
    && s.updatedBy.value != "auto-sync"
  }

  /** `isCustomInstructionOutdated`. */
  function IsCustomInstructionOutdated(table: seq<Characters.Character>, m: map<string, StoredInstruction>, id: string): (b: bool)
    ensures b ==> id in m && Characters.Find(table, id).Some?
    ensures b <==> id in m && Characters.Find(table, id).Some? && Outdated(Characters.Find(table, id).value, m[id])
  {
    match Characters.Find(table, id)
    case None => false
    case Some(c) => if id in m then Outdated(c, m[id]) else false
  }

  function ErrorResult(id: string): SyncResult
  {
    SyncResult(id, Error, Some("unknown"), None, "Character '" + id + "' not found in code")
  }

  function InitialResult(id: string, c: Characters.Character): SyncResult
  {
    SyncResult(id, Synced, c.version, None, "Initial sync: v" + Shown(c.version))
  }

  function UpToDateResult(id: string, c: Characters.Character, s: StoredInstruction): SyncResult
  {
    SyncResult(id, UpToDate, c.version, Some(s.updatedAt), "Custom instruction is up-to-date")
  }

  function SkippedResult(id: string, c: Characters.Character, s: StoredInstruction): SyncResult
    requires s.updatedBy.Some?
  {
    SyncResult(id, SkippedOverride, c.version, Some(s.updatedAt), "Skipped: Admin override by " + s.updatedBy.value)
  }

  function SyncedResult(id: string, c: Characters.Character, s: StoredInstruction, force: bool): SyncResult
  {
    SyncResult(id, Synced, c.version, Some(s.updatedAt),
      "Synced from v" + Shown(c.version) + " (" + (if force then "forced" else "auto") + ")")
  }

  /** The tag a sync writes with: `force-sync` only for a forced sync over
      an existing entry. */
  function SyncTag(force: bool): string
  {
    if force then "force-sync" else "auto-sync"
  }

  /** `syncCharacterInstruction` as a function of the store before it: the
      result and the store after it. */
  function SyncStep(table: seq<Characters.Character>, m: map<string, StoredInstruction>, id: string, force: bool, now: int)
    : (o: (SyncResult, map<string, StoredInstruction>))
    ensures o.0.characterId == id
    ensures o.0.action != Synced ==> o.1 == m
  {
    match Characters.Find(table, id)
    case None => (ErrorResult(id), m)
    case Some(c) =>
      if id !in m then
        (InitialResult(id, c), m[id := Record(id, c.systemInstruction, c.voiceName, Some("auto-sync"), now)])
      else
        var s := m[id];
        if !Outdated(c, s) && !force then (UpToDateResult(id, c, s), m)
        else if DeliberateOverride(s) && !force then (SkippedResult(id, c, s), m)
        else (SyncedResult(id, c, s, force), m[id := Record(id, c.systemInstruction, c.voiceName, Some(SyncTag(force)), now)])
  }

  /** `syncCharacterInstruction` on the store object. */
  method SyncCharacterInstruction(table: seq<Characters.Character>, store: Store, id: string, force: bool, now: int)
    returns (result: SyncResult)
    modifies store
    ensures (result, store.instructions) == SyncStep(table, old(store.instructions), id, force, now)
  {
    var character := Characters.Find(table, id);
    if character.None? {
      return ErrorResult(id);
    }
    var c := character.value;
    var custom := store.Get(id);
    if custom.None? {
      store.Set(id, c.systemInstruction, c.voiceName, Some("auto-sync"), now);
      return InitialResult(id, c);
    }
    var s := custom.value;
    var isOutdated := Outdated(c, s);
    if !isOutdated && !force {
      return UpToDateResult(id, c, s);
    }
    var isDeliberateOverride := DeliberateOverride(s);
    if isDeliberateOverride && !force {
      return SkippedResult(id, c, s);
    }
    store.Set(id, c.systemInstruction, c.voiceName, Some(SyncTag(force)), now);
    return SyncedResult(id, c, s, force);
  }

  /** An unknown id is an error, whatever `force` says, and nothing is
      written. */
  lemma SyncErrorIff(table: seq<Characters.Character>, m: map<string, StoredInstruction>, id: string, force: bool, now: int)
    ensures var o := SyncStep(table, m, id, force, now);
      (o.0.action == Error <==> forall c :: c in table ==> c.id != id)
      && (o.0.action == Error ==> o.1 == m && o.0.codeVersion == Some("unknown"))
  {
  }

  /** The outcome of a sync for a known character, case by case: a first
      sync always writes with `auto-sync`; an existing entry is left alone
      when it is not outdated and the sync is not forced, skipped when it is
      a deliberate override and the sync is not forced, and otherwise
      rewritten with the tag of the sync. Whenever it writes, the code's
      prompt and voice are stored at `now` and no other entry changes. */
  lemma SyncOutcome(table: seq<Characters.Character>, m: map<string, StoredInstruction>, id: string, force: bool, now: int)
    requires exists c :: c in table && c.id == id
    ensures var o, c := SyncStep(table, m, id, force, now), Characters.Find(table, id).value;
      && (o.0.action == UpToDate <==> id in m && !Outdated(c, m[id]) && !force)
      && (o.0.action == SkippedOverride <==> id in m && Outdated(c, m[id]) && DeliberateOverride(m[id]) && !force)
      && (o.0.action == Synced <==> id !in m || force || (Outdated(c, m[id]) && !DeliberateOverride(m[id])))
      && o.0.action != Error
      && o.0.codeVersion == c.version
      && (o.0.action == Synced ==>
            id in o.1 && o.1[id].systemInstruction == c.systemInstruction && o.1[id].voiceName == c.voiceName
            && o.1[id].updatedAt == now
            && o.1[id].updatedBy == Some(if id in m then SyncTag(force) else "auto-sync")
            && (forall k :: k != id ==> (k in o.1 <==> k in m) && (k in m ==> o.1[k] == m[k])))
  {
    var c :| c in table && c.id == id;
    assert Characters.Find(table, id).Some?;
  }

  /** Once a sync has written an entry at a time no earlier than the code's
      `lastUpdated`, an unforced sync of it at any later moment reports
      `up-to-date` and writes nothing. */
  lemma ResyncIsNoOp(table: seq<Characters.Character>, m: map<string, StoredInstruction>, id: string,
                     force: bool, now: int, later: int)
    requires SyncStep(table, m, id, force, now).0.action == Synced
    requires var c := Characters.Find(table, id).value; c.lastUpdated.Some? ==> c.lastUpdated.value <= now
    ensures var m1 := SyncStep(table, m, id, force, now).1;
      var o := SyncStep(table, m1, id, false, later);
      o.0.action == UpToDate && o.1 == m1
  {
    var m1 := SyncStep(table, m, id, force, now).1;
    WrittenAt(table, m, id, force, now);
    FreshIsUpToDate(table, m1, id, later);
  }

  /** A sync that writes leaves the entry stamped with its own time. */
  lemma WrittenAt(table: seq<Characters.Character>, m: map<string, StoredInstruction>, id: string, force: bool, now: int)
    requires SyncStep(table, m, id, force, now).0.action == Synced
    ensures Characters.Find(table, id).Some?
    ensures var m1 := SyncStep(table, m, id, force, now).1; id in m1 && m1[id].updatedAt == now
  {
    var c := Characters.Find(table, id).value;
    var tag := if id in m then SyncTag(force) else "auto-sync";
    var written := Record(id, c.systemInstruction, c.voiceName, Some(tag), now);
    assert SyncStep(table, m, id, force, now).1 == m[id := written];
  }

  /** An unforced sync of a stored entry that is not outdated changes nothing. */
  lemma FreshIsUpToDate(table: seq<Characters.Character>, m: map<string, StoredInstruction>, id: string, now: int)
    requires Characters.Find(table, id).Some? && id in m
    requires !Outdated(Characters.Find(table, id).value, m[id])
    ensures SyncStep(table, m, id, false, now).0.action == UpToDate
    ensures SyncStep(table, m, id, false, now).1 == m
  {
  }

  /** A forced sync over an existing entry tags it `force-sync`, which later
      counts as a deliberate override: an unforced sync that finds the entry
      outdated skips it. */
  lemma ForcedSyncSticks(table: seq<Characters.Character>, m: map<string, StoredInstruction>, id: string,
                         now: int, later: int)
    requires id in m && exists c :: c in table && c.id == id
    ensures var m1 := SyncStep(table, m, id, true, now).1;
      id in m1 && m1[id].updatedBy == Some("force-sync") && DeliberateOverride(m1[id])
      && (IsCustomInstructionOutdated(table, m1, id) ==>
            SyncStep(table, m1, id, false, later).0.action == SkippedOverride
            && SyncStep(table, m1, id, false, later).1 == m1)
  {
    var c :| c in table && c.id == id;
    assert Characters.Find(table, id).Some?;
  }

  /** With the shipped table, whose entries declare no `lastUpdated`, no
      stored entry is ever outdated, so an unforced sync of a stored entry
      always reports `up-to-date`: code changes to a prompt reach the store
      only through a forced sync or after the entry is deleted. */
  lemma ShippedTableNeverOutdated(m: map<string, StoredInstruction>, id: string, now: int)
    ensures !IsCustomInstructionOutdated(Characters.Table, m, id)
    ensures id in m && Characters.GetCharacterById(id).Some? ==>
      SyncStep(Characters.Table, m, id, false, now).0.action == UpToDate
      && SyncStep(Characters.Table, m, id, false, now).1 == m
  {
    Characters.EntriesComplete();
  }

  // ---------------------------------------------------------------------
  // syncAllCharacters
  // ---------------------------------------------------------------------

  /** The ids of the table, in order. */
  function Ids(table: seq<Characters.Character>): (ids: seq<string>)
    ensures |ids| == |table| && forall i :: 0 <= i < |table| ==> ids[i] == table[i].id
  {
    seq(|table|, i requires 0 <= i < |table| => table[i].id)
  }

  /** Syncing `ids` one after the other, each on the store the previous one
      left: one result per id, in order. */
  function SyncSeq(table: seq<Characters.Character>, ids: seq<string>, m: map<string, StoredInstruction>, force: bool, now: int)
    : (o: (seq<SyncResult>, map<string, StoredInstruction>))
    ensures |o.0| == |ids|
    ensures forall i :: 0 <= i < |ids| ==> o.0[i].characterId == ids[i]
  {
    if |ids| == 0 then ([], m)
    else
      var before := SyncSeq(table, ids[..|ids| - 1], m, force, now);
      var step := SyncStep(table, before.1, ids[|ids| - 1], force, now);
      (before.0 + [step.0], step.1)
  }

  /** `syncAllCharacters`. */
  method SyncAllCharacters(table: seq<Characters.Character>, store: Store, force: bool, now: int)
    returns (results: seq<SyncResult>)
    modifies store
    ensures (results, store.instructions) == SyncSeq(table, Ids(table), old(store.instructions), force, now)
  {
    results := [];
    ghost var ids := Ids(table);
    ghost var m0 := store.instructions;
    for i := 0 to |table|
      invariant (results, store.instructions) == SyncSeq(table, ids[..i], m0, force, now)
    {
      assert ids[..i + 1][..i] == ids[..i];
      var result := SyncCharacterInstruction(table, store, table[i].id, force, now);
      results := results + [result];
    }
    assert ids[..|table|] == ids;
  }

  /** `id` is the id of some entry of the table. */
  ghost predicate Known(table: seq<Characters.Character>, id: string)
  {
    exists c :: c in table && c.id == id
  }

  /** Syncing every character of the table never reports an error: each
      id synced is found in the table. */
  lemma {:induction false} SyncAllNoErrors(table: seq<Characters.Character>, ids: seq<string>,
                                           m: map<string, StoredInstruction>, force: bool, now: int)
    requires forall k :: 0 <= k < |ids| ==> Known(table, ids[k])
    ensures forall i :: 0 <= i < |ids| ==> SyncSeq(table, ids, m, force, now).0[i].action != Error
  {
    if |ids| > 0 {
      var prefix := ids[..|ids| - 1];
      assert forall k :: 0 <= k < |prefix| ==> Known(table, prefix[k]) by {
        assert forall k :: 0 <= k < |prefix| ==> prefix[k] == ids[k];
      }
      SyncAllNoErrors(table, prefix, m, force, now);
      var before := SyncSeq(table, prefix, m, force, now);
      SyncErrorIff(table, before.1, ids[|ids| - 1], force, now);
    }
  }

  /** One result per character, in table order, none of them an error. */
  lemma SyncAllOnePerCharacter(table: seq<Characters.Character>, m: map<string, StoredInstruction>, force: bool, now: int)
    ensures var rs := SyncSeq(table, Ids(table), m, force, now).0;
      |rs| == |table|
      && forall i :: 0 <= i < |table| ==> rs[i].characterId == table[i].id && rs[i].action != Error
  {
    SyncAllNoErrors(table, Ids(table), m, force, now);
  }

  // ---------------------------------------------------------------------
  // getSyncStatus
  // ---------------------------------------------------------------------

  datatype SyncStatus = SyncStatus(
    characterId: string,
    characterName: string,
    codeVersion: Option<string>,
    codeLastUpdated: Option<int>,
    hasCustomOverride: bool,
    customUpdatedAt: Option<int>,
    customUpdatedBy: Option<string>,
    isOutdated: bool,
    isDeliberateOverride: bool)

  /** The status line of one character. Its deliberate-override test uses
      optional chaining: a missing entry, or one without `updatedBy`,
      compares unequal to both tags. */
  function StatusOf(table: seq<Characters.Character>, m: map<string, StoredInstruction>, c: Characters.Character): SyncStatus
  {
    var custom := if c.id in m then Some(m[c.id]) else None;
    var tag := if custom.Some? then custom.value.updatedBy else None;
    SyncStatus(
      c.id, c.name, c.version, c.lastUpdated,
      custom.Some?,
      if custom.Some? then Some(custom.value.updatedAt) else None,
      tag,
      IsCustomInstructionOutdated(table, m, c.id),
      tag != Some("system") && tag != Some("auto-sync"))
  }

  /** `getSyncStatus`: one status line per character, in table order. */
  function GetSyncStatus(table: seq<Characters.Character>, m: map<string, StoredInstruction>): (st: seq<SyncStatus>)
    ensures |st| == |table|
    ensures forall i :: 0 <= i < |table| ==>
              st[i].characterId == table[i].id && (st[i].hasCustomOverride <==> table[i].id in m)
  {
    seq(|table|, i requires 0 <= i < |table| => StatusOf(table, m, table[i]))
  }

  /** The status report and the sync disagree on what a deliberate override
      is: the report counts a missing entry, a missing `updatedBy` and an
      empty one as deliberate, the sync does not; for any other stored tag
      the two agree. */
  lemma DeliberateDisagreement(table: seq<Characters.Character>, m: map<string, StoredInstruction>, i: nat)
    requires i < |table|
    ensures var st, id := GetSyncStatus(table, m)[i], table[i].id;
      && (id !in m ==> st.isDeliberateOverride && !st.hasCustomOverride)
      && (id in m && (m[id].updatedBy == None || m[id].updatedBy == Some("")) ==>
            st.isDeliberateOverride && !DeliberateOverride(m[id]))
      && (id in m && m[id].updatedBy.Some? && m[id].updatedBy.value != "" ==>
            st.isDeliberateOverride == DeliberateOverride(m[id]))
  {
  }
}
