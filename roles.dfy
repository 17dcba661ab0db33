/**
 * The role registry of `RolesManager` (app/roles.py).
 *
 * The registry lists four built-in roles followed by the user's custom roles. The
 * custom roles live in a roles file that holds `name`/`prompt` pairs; the file is
 * deleted when the last custom role goes. The manager caches the merged list and
 * drops the cache whenever it rewrites the file.
 */
module Roles {
  import opened Wrappers

  /** A role as the roles file stores it: what `Role.to_dict` produces. */
  datatype RoleRecord = RoleRecord(name: string, prompt: string)

  /** A role/persona, and whether it is one of the built-in ones. */
  datatype Role = Role(name: string, prompt: string, isPredefined: bool) {

    /** The record this role is saved as; the predefined flag is not stored. */
    function ToDict(): RoleRecord {
      RoleRecord(name, prompt)
    }
  }

  /** Why `add` or `delete` raised `ValueError`. */
  datatype RoleError =
    | AlreadyExists(name: string)
    | NotFound(name: string)
    | CannotDeletePredefined(name: string)

  /** The text carried by the `ValueError`. */
  function ErrorMessage(e: RoleError): string {
    match e
    case AlreadyExists(n) => "Role '" + n + "' already exists"
    case NotFound(n) => "Role '" + n + "' not found"
    case CannotDeletePredefined(n) => "Cannot delete predefined role '" + n + "'"
  }

  const DefaultRoleName: string := "Virtual Assistant"

  const PredefinedRecords: seq<RoleRecord> := [
    RoleRecord("Virtual Assistant",
      "You are a friendly virtual assistant. "
      + "You are helpful, concise, and provide clear answers."),
    RoleRecord("Marketing Expert",
      "You are a marketing expert with deep knowledge of digital marketing, "
      + "branding, consumer psychology, and growth strategies. "
      + "Provide actionable insights and data-driven recommendations."),
    RoleRecord("Code Reviewer",
      "You are a senior code reviewer with expertise in software best practices, "
      + "design patterns, and clean code principles. "
      + "Focus on code quality, maintainability, security, and performance improvements."),
    RoleRecord("Technical Writer",
      "You are a technical writer skilled at explaining complex concepts in simple terms. "
      + "You create clear documentation, tutorials, and guides "
      + "that are easy to understand for various audiences.")
  ]

  /** The state of the roles file: None when it does not exist, else the records under its `roles` key. */
  type RolesFile = Option<seq<RoleRecord>>

  /** The records in the roles file; an absent file holds none. */
  function StoredRecords(file: RolesFile): seq<RoleRecord> {
    file.GetOr([])
  }

  /** Roles built from records, all with the given predefined flag. */
  function FromRecords(rs: seq<RoleRecord>, predefined: bool): (roles: seq<Role>)
    ensures |roles| == |rs|
    ensures forall i :: 0 <= i < |rs| ==> roles[i] == Role(rs[i].name, rs[i].prompt, predefined)
  {
    if rs == [] then [] else [Role(rs[0].name, rs[0].prompt, predefined)] + FromRecords(rs[1..], predefined)
  }

  /** `to_dict` applied to every role, in order. */
  function ToRecords(roles: seq<Role>): (rs: seq<RoleRecord>)
    ensures |rs| == |roles|
    ensures forall i :: 0 <= i < |roles| ==> rs[i] == RoleRecord(roles[i].name, roles[i].prompt)
  {
    if roles == [] then [] else [roles[0].ToDict()] + ToRecords(roles[1..])
  }

  /** The built-in roles, flagged as predefined. */
  function PredefinedRoles(): seq<Role> {
    FromRecords(PredefinedRecords, true)
  }

  /** `_load_custom_roles`: the roles in the file, none of them predefined. */
  function LoadCustomRoles(file: RolesFile): seq<Role> {
    FromRecords(StoredRecords(file), false)
  }

  /** `_save_custom_roles`: the file removed when there is nothing to save, else written with every role's record. */
  function SaveCustomRoles(roles: seq<Role>): RolesFile {
    if roles == [] then None else Some(ToRecords(roles))
  }

  /** `_load_roles`: the built-in roles followed by the custom ones. */
  function LoadRoles(file: RolesFile): seq<Role> {
    PredefinedRoles() + LoadCustomRoles(file)
  }

  /** `get_by_name` on a list: the first role called `name`, if any. */
  function Lookup(roles: seq<Role>, name: string): (r: Option<Role>)
    ensures r.None? <==> forall i :: 0 <= i < |roles| ==> roles[i].name != name
    ensures r.Some? ==> exists i :: 0 <= i < |roles| && roles[i] == r.value && r.value.name == name
                                 && forall j :: 0 <= j < i ==> roles[j].name != name
  {
    if roles == [] then None
    else if roles[0].name == name then Some(roles[0])
    else
      var r := Lookup(roles[1..], name);
      assert r.Some? ==> exists i :: 0 <= i < |roles| && roles[i] == r.value && r.value.name == name
                                    && forall j :: 0 <= j < i ==> roles[j].name != name by {
        if r.Some? {
          var i :| 0 <= i < |roles[1..]| && roles[1..][i] == r.value && r.value.name == name
            && forall j :: 0 <= j < i ==> roles[1..][j].name != name;
          assert roles[i + 1] == r.value;
          assert forall j :: 1 <= j < i + 1 ==> roles[j] == roles[1..][j - 1];
        }
      }
      r
  }

  /** The custom roles of a list: `[r for r in roles if not r.is_predefined]`. */
  function Customs(roles: seq<Role>): seq<Role> {
    if roles == [] then []
    else if roles[0].isPredefined then Customs(roles[1..])
    else [roles[0]] + Customs(roles[1..])
  }

  /** The roles `delete` keeps: `[r for r in roles if r.name != name and not r.is_predefined]`. */
  function Remaining(roles: seq<Role>, name: string): (rest: seq<Role>)
    ensures forall i :: 0 <= i < |rest| ==> rest[i].name != name && !rest[i].isPredefined
  {
    if roles == [] then []
    else if roles[0].name != name && !roles[0].isPredefined then [roles[0]] + Remaining(roles[1..], name)
    else Remaining(roles[1..], name)
  }

  /** `list_names` on a list. */
  function Names(roles: seq<Role>): (names: seq<string>)
    ensures |names| == |roles|
    ensures forall i :: 0 <= i < |roles| ==> names[i] == roles[i].name
  {
    if roles == [] then [] else [roles[0].name] + Names(roles[1..])
  }

  /** The file `add` writes, given the list `roles` returned: its custom roles plus the new one. */
  function FileAfterAdd(roles: seq<Role>, name: string, prompt: string): RolesFile {
    SaveCustomRoles(Customs(roles) + [Role(name, prompt, false)])
  }

  /** The file `delete` writes, given the list `roles` returned: its custom roles not called `name`. */
  function FileAfterDelete(roles: seq<Role>, name: string): RolesFile {
    SaveCustomRoles(Remaining(roles, name))
  }

  // ----- Properties of the list operations, for any built-in and custom parts -----

  predicate AllPredefined(roles: seq<Role>) {
    forall i :: 0 <= i < |roles| ==> roles[i].isPredefined
  }

  predicate AllCustom(roles: seq<Role>) {
    forall i :: 0 <= i < |roles| ==> !roles[i].isPredefined
  }

  lemma {:induction false} CustomsAppend(a: seq<Role>, b: seq<Role>)
    ensures Customs(a + b) == Customs(a) + Customs(b)
    decreases |a|
  {
    if a != [] {
      assert (a + b)[0] == a[0];
      assert (a + b)[1..] == a[1..] + b;
      CustomsAppend(a[1..], b);
    } else {
      assert a + b == b;
    }
  }

  /** Filtering keeps the relative order: it distributes over concatenation. */
  lemma {:induction false} RemainingAppend(a: seq<Role>, b: seq<Role>, name: string)
    ensures Remaining(a + b, name) == Remaining(a, name) + Remaining(b, name)
    decreases |a|
  {
    if a != [] {
      assert (a + b)[0] == a[0];
      assert (a + b)[1..] == a[1..] + b;
      RemainingAppend(a[1..], b, name);
    } else {
      assert a + b == b;
    }
  }

  /** `add`'s filter drops the built-in roles and keeps the custom ones as they are. */
  lemma {:induction false} CustomsSplit(roles: seq<Role>)
    ensures AllPredefined(roles) ==> Customs(roles) == []
    ensures AllCustom(roles) ==> Customs(roles) == roles
    decreases |roles|
  {
    if roles != [] {
      CustomsSplit(roles[1..]);
    }
  }

  /** `delete`'s filter on custom roles leaves nothing exactly when every one of them carries the name. */
  lemma {:induction false} RemainingEmpty(roles: seq<Role>, name: string)
    requires AllCustom(roles)
    ensures Remaining(roles, name) == [] <==> forall i :: 0 <= i < |roles| ==> roles[i].name == name
    decreases |roles|
  {
    if roles != [] {
      RemainingEmpty(roles[1..], name);
      assert forall i :: 1 <= i < |roles| ==> roles[i] == roles[1..][i - 1];
    }
  }

  /** `delete`'s filter drops every built-in role. */
  lemma {:induction false} RemainingOfPredefined(roles: seq<Role>, name: string)
    requires AllPredefined(roles)
    ensures Remaining(roles, name) == []
    decreases |roles|
  {
    if roles != [] {
      RemainingOfPredefined(roles[1..], name);
    }
  }

  /** Filtering custom roles by a name none of them has changes nothing. */
  lemma {:induction false} RemainingKeepsOthers(roles: seq<Role>, name: string)
    requires forall i :: 0 <= i < |roles| ==> roles[i].name != name && !roles[i].isPredefined
    ensures Remaining(roles, name) == roles
    decreases |roles|
  {
    if roles != [] {
      RemainingKeepsOthers(roles[1..], name);
    }
  }

  /** `get_by_name` on a concatenation looks in the second part only when the first has no match. */
  lemma {:induction false} LookupAppend(a: seq<Role>, b: seq<Role>, name: string)
    ensures Lookup(a + b, name) == if Lookup(a, name).Some? then Lookup(a, name) else Lookup(b, name)
    decreases |a|
  {
    if a != [] {
      assert (a + b)[0] == a[0];
      assert (a + b)[1..] == a[1..] + b;
      LookupAppend(a[1..], b, name);
    } else {
      assert a + b == b;
    }
  }

  /** Filtering out the custom roles called `name` leaves the lookup of every other name alone. */
  lemma {:induction false} LookupRemaining(roles: seq<Role>, name: string, other: string)
    requires other != name
    requires AllCustom(roles)
    ensures Lookup(Remaining(roles, name), other) == Lookup(roles, other)
    decreases |roles|
  {
    if roles != [] {
      LookupRemaining(roles[1..], name, other);
    }
  }

  /** After the merged list loses the custom roles called `name`, a lookup of `name` finds nothing,
      provided the first match was custom. */
  lemma MergedDeleteRemovesName(pre: seq<Role>, customs: seq<Role>, name: string)
    requires AllPredefined(pre)
    requires Lookup(pre + customs, name).Some? && !Lookup(pre + customs, name).value.isPredefined
    ensures Lookup(pre + Remaining(customs, name), name).None?
  {
    LookupAppend(pre, customs, name);
    LookupAppend(pre, Remaining(customs, name), name);
  }

  /** A role appended to a list without its name is what a lookup of the name finds. */
  lemma AddedIsFound(roles: seq<Role>, name: string, prompt: string)
    requires Lookup(roles, name).None?
    ensures Lookup(roles + [Role(name, prompt, false)], name) == Some(Role(name, prompt, false))
  {
    LookupAppend(roles, [Role(name, prompt, false)], name);
  }

  /** A role is kept by `delete`'s filter exactly when it is custom and not named `name`, in any list. */
  lemma {:induction false} RemainingMembers(roles: seq<Role>, name: string)
    ensures forall r :: r in Remaining(roles, name) <==> r in roles && r.name != name && !r.isPredefined
    decreases |roles|
  {
    if roles != [] {
      RemainingMembers(roles[1..], name);
      assert roles == [roles[0]] + roles[1..];
    }
  }

  /** Adding a name absent from the merged list and then deleting it gives the merged list back. */
  lemma MergedAddThenDelete(pre: seq<Role>, customs: seq<Role>, name: string, prompt: string)
    requires AllCustom(customs)
    requires Lookup(pre + customs, name).None?
    ensures Remaining(customs + [Role(name, prompt, false)], name) == customs
  {
    RemainingAppend(customs, [Role(name, prompt, false)], name);
    assert Remaining([Role(name, prompt, false)], name) == [];
    forall i | 0 <= i < |customs| ensures customs[i].name != name {
      assert (pre + customs)[|pre| + i] == customs[i];
    }
    RemainingKeepsOthers(customs, name);
  }

  /** Saving custom roles and loading them back keeps every name and prompt, in order. */
  lemma SaveLoadRoundTripCustom(roles: seq<Role>)
    requires AllCustom(roles)
    ensures SaveCustomRoles(roles).None? <==> roles == []
    ensures FromRecords(StoredRecords(SaveCustomRoles(roles)), false) == roles
  {
  }

  /** Building roles from records distributes over concatenation. */
  lemma {:induction false} RecordsAppend(a: seq<RoleRecord>, b: seq<RoleRecord>)
    ensures FromRecords(a + b, false) == FromRecords(a, false) + FromRecords(b, false)
    decreases |a|
  {
    if a != [] {
      assert (a + b)[0] == a[0];
      assert (a + b)[1..] == a[1..] + b;
      RecordsAppend(a[1..], b);
    } else {
      assert a + b == b;
    }
  }

  /** `to_dict` undoes building a role from a record. */
  lemma {:induction false} ToRecordsOfFromRecords(rs: seq<RoleRecord>, predefined: bool)
    ensures ToRecords(FromRecords(rs, predefined)) == rs
    decreases |rs|
  {
    if rs != [] {
      assert FromRecords(rs, predefined)[1..] == FromRecords(rs[1..], predefined);
      ToRecordsOfFromRecords(rs[1..], predefined);
    }
  }

  // ----- Properties of the registry -----

  /**
   * The merged list: the four built-in roles in order and flagged predefined, then
   * the records of the roles file in order, flagged custom.
   */
  lemma LoadRolesLayout(file: RolesFile)
    ensures |LoadRoles(file)| == |PredefinedRecords| + |StoredRecords(file)|
    ensures forall i :: 0 <= i < |PredefinedRecords| ==>
      LoadRoles(file)[i] == Role(PredefinedRecords[i].name, PredefinedRecords[i].prompt, true)
    ensures forall i :: 0 <= i < |StoredRecords(file)| ==>
      LoadRoles(file)[|PredefinedRecords| + i] == Role(StoredRecords(file)[i].name, StoredRecords(file)[i].prompt, false)
  {
    MergedLayout(PredefinedRecords, StoredRecords(file));
  }

  /** The layout of built-in records `pre` merged with custom records `rs`. */
  lemma MergedLayout(pre: seq<RoleRecord>, rs: seq<RoleRecord>)
    ensures |FromRecords(pre, true) + FromRecords(rs, false)| == |pre| + |rs|
    ensures forall i :: 0 <= i < |pre| ==>
      (FromRecords(pre, true) + FromRecords(rs, false))[i] == Role(pre[i].name, pre[i].prompt, true)
    ensures forall i :: 0 <= i < |rs| ==>
      (FromRecords(pre, true) + FromRecords(rs, false))[|pre| + i] == Role(rs[i].name, rs[i].prompt, false)
  {
  }

  /**
   * Saving then loading keeps every role's name and prompt, in order, and marks it
   * custom; an empty list removes the file, so reloading yields only the built-in roles.
   */
  lemma SaveLoadRoundTrip(roles: seq<Role>)
    ensures SaveCustomRoles(roles).None? <==> roles == []
    ensures |LoadCustomRoles(SaveCustomRoles(roles))| == |roles|
    ensures forall i :: 0 <= i < |roles| ==>
      LoadCustomRoles(SaveCustomRoles(roles))[i] == Role(roles[i].name, roles[i].prompt, false)
    ensures AllCustom(roles) ==> LoadCustomRoles(SaveCustomRoles(roles)) == roles
    ensures roles == [] ==> LoadRoles(SaveCustomRoles(roles)) == PredefinedRoles()
  {
  }

  /** Loading then saving writes back the same records (or leaves the file absent when it held none). */
  lemma LoadSaveRoundTrip(file: RolesFile)
    ensures SaveCustomRoles(LoadCustomRoles(file)) == if StoredRecords(file) == [] then None else Some(StoredRecords(file))
  {
    var rs := StoredRecords(file);
    if rs != [] {
      assert ToRecords(FromRecords(rs, false)) == rs;
    }
  }

  /** A lookup returns the role at the first index carrying the name. */
  lemma {:induction false} LookupFirst(roles: seq<Role>, name: string, i: nat)
    requires i < |roles| && roles[i].name == name
    requires forall j :: 0 <= j < i ==> roles[j].name != name
    ensures Lookup(roles, name) == Some(roles[i])
    decreases i
  {
    if i > 0 {
      LookupFirst(roles[1..], name, i - 1);
    }
  }

  /** A role built from a record whose name no earlier record has is what a lookup of that name finds. */
  lemma MergedLookupOfBuiltin(pre: seq<RoleRecord>, customs: seq<Role>, i: nat)
    requires i < |pre|
    requires forall j :: 0 <= j < i ==> pre[j].name != pre[i].name
    ensures Lookup(FromRecords(pre, true) + customs, pre[i].name) == Some(Role(pre[i].name, pre[i].prompt, true))
  {
    var roles := FromRecords(pre, true) + customs;
    assert forall j :: 0 <= j <= i ==> roles[j] == Role(pre[j].name, pre[j].prompt, true);
    LookupFirst(roles, pre[i].name, i);
  }

  /** No two built-in roles share a name. */
  lemma PredefinedNamesDistinct()
    ensures forall i, j :: 0 <= j < i < |PredefinedRecords| ==> PredefinedRecords[j].name != PredefinedRecords[i].name
  {
    assert forall i, j :: 0 <= j < i < |PredefinedRecords| ==> PredefinedRecords[j].name[0] != PredefinedRecords[i].name[0];
  }

  /** The built-in roles can always be found by name, and what is found is the built-in one. */
  lemma PredefinedAreFound(file: RolesFile, i: nat)
    requires i < |PredefinedRecords|
    ensures Lookup(LoadRoles(file), PredefinedRecords[i].name) == Some(LoadRoles(file)[i])
    ensures LoadRoles(file)[i].isPredefined
  {
    PredefinedNamesDistinct();
    MergedLookupOfBuiltin(PredefinedRecords, LoadCustomRoles(file), i);
  }

  /** `get_default` always returns the built-in Virtual Assistant, which heads the list. */
  lemma DefaultIsVirtualAssistant(file: RolesFile)
    ensures Lookup(LoadRoles(file), DefaultRoleName) == Some(Role(DefaultRoleName, PredefinedRecords[0].prompt, true))
    ensures LoadRoles(file)[0] == Role(DefaultRoleName, PredefinedRecords[0].prompt, true)
  {
    PredefinedAreFound(file, 0);
    LoadRolesLayout(file);
  }

  // The lemmas below hold for any built-in prefix `pre`; the registry uses `PredefinedRoles()`.

  /**
   * After `add`, the file holds the old records plus the new one, and the merged
   * list is the old one with the new custom role appended.
   */
  lemma AddAppendsRole(pre: seq<Role>, file: RolesFile, name: string, prompt: string)
    requires AllPredefined(pre)
    ensures FileAfterAdd(pre + LoadCustomRoles(file), name, prompt) == Some(StoredRecords(file) + [RoleRecord(name, prompt)])
    ensures pre + LoadCustomRoles(FileAfterAdd(pre + LoadCustomRoles(file), name, prompt))
         == pre + LoadCustomRoles(file) + [Role(name, prompt, false)]
  {
    var customs, rs := LoadCustomRoles(file), StoredRecords(file);
    var role, record := Role(name, prompt, false), RoleRecord(name, prompt);
    assert Customs(pre + customs) == customs by {
      CustomsAppend(pre, customs);
      CustomsSplit(pre);
      CustomsSplit(customs);
    }
    assert FromRecords(rs + [record], false) == customs + [role] by {
      RecordsAppend(rs, [record]);
      assert [record][1..] == [];
    }
    assert ToRecords(customs + [role]) == rs + [record] by {
      ToRecordsOfFromRecords(rs + [record], false);
    }
    assert pre + customs + [role] == pre + (customs + [role]);
  }

  /**
   * After `delete`, the built-in roles are untouched and the custom roles are the
   * old ones, in order, without those called `name`; the file is removed when none is left.
   */
  lemma DeleteFiltersCustoms(pre: seq<Role>, file: RolesFile, name: string)
    requires AllPredefined(pre)
    ensures LoadCustomRoles(FileAfterDelete(pre + LoadCustomRoles(file), name)) == Remaining(LoadCustomRoles(file), name)
    ensures FileAfterDelete(pre + LoadCustomRoles(file), name).None? <==>
      forall i :: 0 <= i < |StoredRecords(file)| ==> StoredRecords(file)[i].name == name
  {
    var customs, rs := LoadCustomRoles(file), StoredRecords(file);
    var rest := Remaining(customs, name);
    assert FileAfterDelete(pre + customs, name) == SaveCustomRoles(rest) by {
      RemainingAppend(pre, customs, name);
      RemainingOfPredefined(pre, name);
      assert [] + rest == rest;
    }
    assert FromRecords(StoredRecords(SaveCustomRoles(rest)), false) == rest && (SaveCustomRoles(rest).None? <==> rest == []) by {
      SaveLoadRoundTripCustom(rest);
    }
    assert rest == [] <==> forall i :: 0 <= i < |rs| ==> rs[i].name == name by {
      RemainingEmpty(customs, name);
      assert forall i :: 0 <= i < |rs| ==> customs[i].name == rs[i].name;
    }
  }

  /** A successful `delete` leaves no role called `name`. */
  lemma DeletedNameIsGone(pre: seq<Role>, file: RolesFile, name: string)
    requires AllPredefined(pre)
    requires Lookup(pre + LoadCustomRoles(file), name).Some? && !Lookup(pre + LoadCustomRoles(file), name).value.isPredefined
    ensures Lookup(pre + LoadCustomRoles(FileAfterDelete(pre + LoadCustomRoles(file), name)), name).None?
  {
    DeleteFiltersCustoms(pre, file, name);
    MergedDeleteRemovesName(pre, LoadCustomRoles(file), name);
  }

  /** `delete` of one name leaves the lookup of every other name as it was. */
  lemma DeleteKeepsOtherRoles(pre: seq<Role>, file: RolesFile, name: string, other: string)
    requires AllPredefined(pre)
    requires other != name
    ensures Lookup(pre + LoadCustomRoles(FileAfterDelete(pre + LoadCustomRoles(file), name)), other)
         == Lookup(pre + LoadCustomRoles(file), other)
  {
    var customs := LoadCustomRoles(file);
    DeleteFiltersCustoms(pre, file, name);
    LookupAppend(pre, Remaining(customs, name), other);
    LookupAppend(pre, customs, other);
    LookupRemaining(customs, name, other);
  }

  /**
   * `add` of a new name then `delete` of it gives back the original list of roles:
   * after `add` the name is found as the new custom role, so `delete` succeeds.
   */
  lemma AddThenDeleteRestores(pre: seq<Role>, file: RolesFile, name: string, prompt: string)
    requires AllPredefined(pre)
    requires Lookup(pre + LoadCustomRoles(file), name).None?
    ensures var added := FileAfterAdd(pre + LoadCustomRoles(file), name, prompt);
            Lookup(pre + LoadCustomRoles(added), name) == Some(Role(name, prompt, false))
    ensures var added := FileAfterAdd(pre + LoadCustomRoles(file), name, prompt);
            pre + LoadCustomRoles(FileAfterDelete(pre + LoadCustomRoles(added), name)) == pre + LoadCustomRoles(file)
  {
    var customs := LoadCustomRoles(file);
    var added := FileAfterAdd(pre + customs, name, prompt);
    AddAppendsRole(pre, file, name, prompt);
    assert LoadCustomRoles(added) == customs + [Role(name, prompt, false)];
    AddedIsFound(pre + customs, name, prompt);
    DeleteFiltersCustoms(pre, added, name);
    MergedAddThenDelete(pre, customs, name, prompt);
  }

  /** The loop of `get_by_name` over the list of roles: the first role called `name`, or None. */
  method FindByName(roles: seq<Role>, name: string) returns (r: Option<Role>)
    ensures r == Lookup(roles, name)
  {
    var i := 0;
    while i < |roles|
      invariant 0 <= i <= |roles|
      invariant forall j :: 0 <= j < i ==> roles[j].name != name
    {
      if roles[i].name == name {
        LookupFirst(roles, name, i);
        return Some(roles[i]);
      }
      i := i + 1;
    }
    return None;
  }

  /**
   * `RolesManager`: the roles file it reads and writes, and its `_roles` cache.
   * While the cache is filled it equals the merged list of the current file.
   */
  class RolesManager {
    var file: RolesFile
    var cache: Option<seq<Role>>

    ghost predicate Valid()
      reads this
    {
      cache.Some? ==> cache.value == LoadRoles(file)
    }

    /** A manager over a roles file in the given state, with an empty cache. */
    constructor (file: RolesFile)
      ensures Valid() && this.file == file && cache == None
    {
      this.file := file;
      cache := None;
    }

    /** The `roles` property: loads on first use, then answers from the cache. */
    method GetRoles() returns (roles: seq<Role>)
      requires Valid()
      modifies this`cache
      ensures Valid()
      ensures roles == LoadRoles(file)
      ensures cache == Some(roles)
    {
      if cache.None? {
        cache := Some(LoadRoles(file));
      }
      roles := cache.value;
    }

    /** `get_by_name`: the first role in `roles` called `name`, or None. */
    method GetByName(name: string) returns (r: Option<Role>)
      requires Valid()
      modifies this`cache
      ensures Valid()
      ensures r == Lookup(LoadRoles(file), name)
    {
      var roles := GetRoles();
      r := FindByName(roles, name);
    }

    /** `get_default`: the role called "Virtual Assistant" if any, else the first role. */
    method GetDefault() returns (r: Role)
      requires Valid()
      modifies this`cache
      ensures Valid()
      ensures r == Role(DefaultRoleName, PredefinedRecords[0].prompt, true)
    {
      DefaultIsVirtualAssistant(file);
      var roles := GetRoles();
      var role := GetByName(DefaultRoleName);
      r := role.GetOr(roles[0]);
    }

    /** `_save_custom_roles`: rewrites (or removes) the roles file. */
    method SaveRoles(roles: seq<Role>)
      modifies this`file
      ensures file == SaveCustomRoles(roles)
    {
      file := SaveCustomRoles(roles);
    }

    /**
     * `add`: fails when any role already has the name; otherwise appends a custom
     * role to the file, drops the cache and returns the role.
     */
    method Add(name: string, prompt: string) returns (r: Result<Role, RoleError>)
      requires Valid()
      modifies this
      ensures Valid()
      ensures Lookup(LoadRoles(old(file)), name).Some? ==>
        r == Failure(AlreadyExists(name)) && file == old(file)
      ensures Lookup(LoadRoles(old(file)), name).None? ==>
        r == Success(Role(name, prompt, false)) && cache == None
        && file == Some(StoredRecords(old(file)) + [RoleRecord(name, prompt)])
        && LoadRoles(file) == LoadRoles(old(file)) + [Role(name, prompt, false)]
        && Lookup(LoadRoles(file), name) == Some(Role(name, prompt, false))
    {
      var existing := GetByName(name);
      if existing.Some? {
        return Failure(AlreadyExists(name));
      }
      var role := Role(name, prompt, false);
      var roles := GetRoles();
      AddAppendsRole(PredefinedRoles(), file, name, prompt);
      AddedIsFound(roles, name, prompt);
      SaveRoles(Customs(roles) + [role]);
      cache := None;
      return Success(role);
    }

    /**
     * `delete`: fails when no role has the name or when the first one that has it
     * is built in; otherwise rewrites the file without the custom roles called
     * `name` and drops the cache.
     */
    method Delete(name: string) returns (err: Option<RoleError>)
      requires Valid()
      modifies this
      ensures Valid()
      ensures Lookup(LoadRoles(old(file)), name).None? ==>
        err == Some(NotFound(name)) && file == old(file)
      ensures Lookup(LoadRoles(old(file)), name).Some? && Lookup(LoadRoles(old(file)), name).value.isPredefined ==>
        err == Some(CannotDeletePredefined(name)) && file == old(file)
      ensures Lookup(LoadRoles(old(file)), name).Some? && !Lookup(LoadRoles(old(file)), name).value.isPredefined ==>
        err == None && cache == None && file == FileAfterDelete(LoadRoles(old(file)), name)
        && LoadRoles(file) == PredefinedRoles() + Remaining(LoadCustomRoles(old(file)), name)
        && Lookup(LoadRoles(file), name).None?
    {
      var role := GetByName(name);
      if role.None? {
        return Some(NotFound(name));
      }
      if role.value.isPredefined {
        return Some(CannotDeletePredefined(name));
      }
      var roles := GetRoles();
      DeleteFiltersCustoms(PredefinedRoles(), file, name);
      DeletedNameIsGone(PredefinedRoles(), file, name);
      SaveRoles(Remaining(roles, name));
      cache := None;
      return None;
    }

    /** `list_names`: the names of `roles`, in order. */
    method ListNames() returns (names: seq<string>)
      requires Valid()
      modifies this`cache
      ensures Valid()
      ensures |names| == |LoadRoles(file)|
      ensures forall i :: 0 <= i < |names| ==> names[i] == LoadRoles(file)[i].name
    {
      var roles := GetRoles();
      names := Names(roles);
    }
  }
}
