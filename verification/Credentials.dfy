/** The credential store (common/credentials.go) and the lookup it makes in Vault (vault/vault.go). */
module Credentials {
  import opened Outcomes
  import opened Aliases
  import opened Texts

  datatype Credential = Credential(user: string, pass: string)

  /** The value of a SecretProperties struct. */
  datatype Props = Props(
    mountPath: string, path: string, userField: string, passwordField: string,
    secretName: string, userName: string, kvVersion: int)

  datatype ProfileFlag = ProfileFlag(name: string, props: Props)

  /** A read of the secrets engine: mount, whether version 2, path of the secret; its string fields come back. */
  type Vault = (string, bool, string) -> Fetched<map<string, string>>

  function SecretPath(p: Props, secret: string): string {
    var name := if p.secretName != "" then p.secretName else secret;
    if p.path != "" then p.path + "/" + name else name
  }

  /** GetKVSecret and the extraction of the two fields. */
  function Lookup(vault: Vault, p: Props, target: string): Outcome<Credential> {
    var data :- vault(p.mountPath, p.kvVersion == 2, SecretPath(p, target)).ToOutcome();
    if p.userName == "" && p.userField !in data then Err(Other)
    else if p.passwordField !in data then Err(Other)
    else Ok(Credential(if p.userName != "" then p.userName else data[p.userField], data[p.passwordField]))
  }

  /** The profile a request names, or the default one. */
  function ChosenProfile(profiles: map<string, Props>, default: string, profile: string): Outcome<Props> {
    if profiles == map[] then Err(Other)
    else if profile != "" then (if profile in profiles then Ok(profiles[profile]) else Err(Other))
    else if default in profiles then Ok(profiles[default]) else Panic
  }

  /** GetCredentials, for one order in which the aliases are visited. */
  function Obtain(vault: Option<Vault>, profiles: map<string, Props>, default: string, profile: string, target: string,
                  aliases: map<string, string>, order: seq<string>): Outcome<Credential>
    requires forall k :: k in order ==> k in aliases
  {
    if vault.None? then Err(Other)
    else
      var p :- ChosenProfile(profiles, default, profile);
      Lookup(vault.value, p.(path := ReplaceKeys(p.path, aliases, order)), target)
  }

  /** A possible answer of GetCredentials: the one for some order of the aliases. */
  ghost predicate CanObtain(r: Outcome<Credential>, vault: Option<Vault>, profiles: map<string, Props>, default: string,
                            profile: string, target: string, aliases: map<string, string>) {
    exists order :: IsOrder(order, aliases.Keys) && r == Obtain(vault, profiles, default, profile, target, aliases, order)
  }

  lemma ObtainedBy(r: Outcome<Credential>, vault: Option<Vault>, profiles: map<string, Props>, default: string,
                   profile: string, target: string, aliases: map<string, string>, order: seq<string>)
    requires IsOrder(order, aliases.Keys)
    requires var p := ChosenProfile(profiles, default, profile);
             if vault.None? then r == Err(Other)
             else if !p.Ok? then p == Err(Other) && r == Err(Other)
             else r == Lookup(vault.value, p.value.(path := ReplaceKeys(p.value.path, aliases, order)), target)
    ensures CanObtain(r, vault, profiles, default, profile, target, aliases)
  {
    assert r == Obtain(vault, profiles, default, profile, target, aliases, order);
  }

  /**
   * What a lookup reads and returns: one secret, under the path of the profile if there is one, named by the profile or
   * else by the target; the fixed user name or the user field; the password field; and no credential without them.
   */
  lemma LookupExactly(vault: Vault, p: Props, target: string, secret: string, path: string)
    requires p.secretName != "" ==> secret == p.secretName
    requires p.secretName == "" ==> secret == target
    requires p.path != "" ==> path == p.path + "/" + secret
    requires p.path == "" ==> path == secret
    ensures var read := vault(p.mountPath, p.kvVersion == 2, path);
            && (read.Failed? ==> Lookup(vault, p, target) == Err(read.error))
            && (read.Got? && (p.passwordField !in read.body || (p.userName == "" && p.userField !in read.body)) ==>
                  Lookup(vault, p, target) == Err(Other))
            && (read.Got? && p.passwordField in read.body && p.userName != "" ==>
                  Lookup(vault, p, target) == Ok(Credential(p.userName, read.body[p.passwordField])))
            && (read.Got? && p.passwordField in read.body && p.userName == "" && p.userField in read.body ==>
                  Lookup(vault, p, target) == Ok(Credential(read.body[p.userField], read.body[p.passwordField])))
  {
  }

  /** Which profile is used: the named one, else the default one; an unknown name or an empty store is an error. */
  lemma ProfileExactly(profiles: map<string, Props>, default: string, profile: string)
    ensures |profiles| == 0 || (profile != "" && profile !in profiles) ==> ChosenProfile(profiles, default, profile) == Err(Other)
    ensures profile != "" && profile in profiles ==> ChosenProfile(profiles, default, profile) == Ok(profiles[profile])
    ensures profile == "" && default in profiles ==> ChosenProfile(profiles, default, profile) == Ok(profiles[default])
  {
  }

  /** The cache after a call that did or did not ask Vault for a fresh credential. */
  function CacheAfter(creds: map<string, Credential>, host: string, refreshes: bool, refresh: Outcome<Credential>): map<string, Credential> {
    if !refreshes then creds
    else if refresh.Ok? then creds[host := refresh.value]
    else creds - {host}
  }

  /** A profile whose path is a well-formed template yields one credential, whatever the order of the aliases. */
  lemma ObtainOrderIndependent(vault: Option<Vault>, profiles: map<string, Props>, default: string, profile: string, target: string,
                               aliases: map<string, string>, t: seq<Part>, r: Outcome<Credential>)
    requires vault.Some? && ChosenProfile(profiles, default, profile).Ok?
    requires ChosenProfile(profiles, default, profile).value.path == Render(t)
    requires CleanParts(t) && CleanAliases(aliases) && Apart(t, aliases)
    ensures var p := ChosenProfile(profiles, default, profile).value;
            CanObtain(r, vault, profiles, default, profile, target, aliases)
            <==> r == Lookup(vault.value, p.(path := Render(Substitute(t, aliases, aliases.Keys))), target)
  {
    forall order | IsOrder(order, aliases.Keys) ensures ReplaceKeys(Render(t), aliases, order) == Render(Substitute(t, aliases, aliases.Keys)) {
      OrderIndependent(t, aliases, order);
    }
    assert IsOrder(AnyOrder(aliases.Keys), aliases.Keys);
  }

  /** Profiles are held by reference. */
  class SecretProperties {
    var MountPath: string
    var Path: string
    var UserField: string
    var PasswordField: string
    var SecretName: string
    var UserName: string
    var KVVersion: int

    function Value(): Props
      reads this
    {
      Props(MountPath, Path, UserField, PasswordField, SecretName, UserName, KVVersion)
    }

    constructor (p: Props)
      ensures Value() == p
    {
      MountPath, Path, UserField, PasswordField := p.mountPath, p.path, p.userField, p.passwordField;
      SecretName, UserName, KVVersion := p.secretName, p.userName, p.kvVersion;
    }

    /** UpdateCredProfilePath: the loop over a Go map visits its keys in an order of its own. */
    method UpdateCredProfilePath(aliases: map<string, string>) returns (ghost order: seq<string>)
      modifies this
      ensures IsOrder(order, aliases.Keys)
      ensures Value() == old(Value()).(path := ReplaceKeys(old(Path), aliases, order))
    {
      order := [];
      var keys := aliases.Keys;
      while keys != {}
        invariant keys <= aliases.Keys && IsOrder(order, aliases.Keys - keys)
        invariant Value() == old(Value()).(path := ReplaceKeys(old(Path), aliases, order))
        decreases keys
      {
        var key :| key in keys;
        keys := keys - {key};
        ReplaceKeysSnoc(old(Path), aliases, order, key);
        order := order + [key];
        if Contains(Path, Placeholder(key)) {
          Path := ReplaceAll(Path, Placeholder(key), aliases[key]);
        }
      }
    }
  }

  lemma {:induction false} ReplaceKeysSnoc(path: string, aliases: map<string, string>, order: seq<string>, key: string)
    requires key in aliases && forall k :: k in order ==> k in aliases
    ensures forall k :: k in order + [key] ==> k in aliases
    ensures ReplaceKeys(path, aliases, order + [key]) == ReplaceKey(ReplaceKeys(path, aliases, order), key, aliases[key])
    decreases |order|
  {
    if order == [] {
      assert [] + [key] == [key] && [key][1..] == [];
    } else {
      assert (order + [key])[1..] == order[1..] + [key];
      ReplaceKeysSnoc(ReplaceKey(path, order[0], aliases[order[0]]), aliases, order[1..], key);
    }
  }

  /** Profiles of one flag, later ones over earlier ones of the same name. */
  function Listed(flags: seq<ProfileFlag>): map<string, Props> {
    if flags == [] then map[] else Listed(flags[..|flags| - 1])[flags[|flags| - 1].name := flags[|flags| - 1].props]
  }

  lemma ListedNext(before: map<string, Props>, flags: seq<ProfileFlag>, i: nat)
    requires i < |flags|
    ensures before + Listed(flags[..i + 1]) == (before + Listed(flags[..i]))[flags[i].name := flags[i].props]
  {
    assert flags[..i + 1][..i] == flags[..i] && flags[..i + 1][i] == flags[i];
  }

  /** A listed profile is the one that the last flag of its name gives. */
  lemma {:induction false} LastFlagWins(flags: seq<ProfileFlag>, i: nat)
    requires i < |flags| && forall j :: i < j < |flags| ==> flags[j].name != flags[i].name
    ensures flags[i].name in Listed(flags) && Listed(flags)[flags[i].name] == flags[i].props
  {
    var front := flags[..|flags| - 1];
    if i < |front| {
      assert front[i] == flags[i];
      LastFlagWins(front, i);
    }
  }

  class ChassisCredentials {
    var Creds: map<string, Credential>
    var Profiles: map<string, SecretProperties>
    var DefaultProfile: string
    var Vault: Option<Vault>

    function ProfileValues(): map<string, Props>
      reads this`Profiles, Profiles.Values
    {
      map n | n in Profiles :: Profiles[n].Value()
    }

    /** The default profile exists as soon as there is any. */
    predicate Valid()
      reads this`Profiles, this`DefaultProfile
    {
      Profiles != map[] ==> DefaultProfile in Profiles
    }

    constructor ()
      ensures Valid() && Creds == map[] && Profiles == map[] && Vault == None
    {
      Creds, Profiles, DefaultProfile, Vault := map[], map[], "", None;
    }

    method Get(key: string) returns (c: Option<Credential>)
      ensures c.Some? <==> key in Creds.Keys
      ensures c.Some? ==> (key, c.value) in Creds.Items
    {
      if key in Creds {
        return Some(Creds[key]);
      }
      return None;
    }

    method Set(key: string, value: Credential)
      modifies this`Creds
      ensures Creds == old(Creds)[key := value]
    {
      Creds := Creds[key := value];
    }

    method SetProfile(flag: ProfileFlag)
      modifies this`Profiles
      ensures ProfileValues() == old(ProfileValues())[flag.name := flag.props]
    {
      var p := new SecretProperties(flag.props);
      Profiles := Profiles[flag.name := p];
    }

    /** The first profile of the list is the default; without any, looking at it is a panic. */
    method PopulateProfiles(flags: seq<ProfileFlag>) returns (panicked: bool)
      modifies this`Profiles, this`DefaultProfile
      ensures panicked <==> flags == []
      ensures panicked ==> Profiles == old(Profiles) && DefaultProfile == old(DefaultProfile)
      ensures !panicked ==>
                Valid() && DefaultProfile == flags[0].name && ProfileValues() == old(ProfileValues()) + Listed(flags)
    {
      if flags == [] {
        return true;
      }
      DefaultProfile := flags[0].name;
      for i := 0 to |flags|
        invariant DefaultProfile == flags[0].name
        invariant i > 0 ==> flags[0].name in ProfileValues()
        invariant ProfileValues() == old(ProfileValues()) + Listed(flags[..i])
      {
        ListedNext(old(ProfileValues()), flags, i);
        SetProfile(flags[i]);
      }
      assert flags[..|flags|] == flags;
      return false;
    }

    method ChooseProfile(profile: string) returns (stored: SecretProperties?)
      requires Valid()
      ensures ChosenProfile(ProfileValues(), DefaultProfile, profile) == if stored == null then Err(Other) else Ok(stored.Value())
    {
      if |Profiles| < 1 {
        return null;
      }
      if profile != "" {
        return if profile in Profiles then Profiles[profile] else null;
      }
      return Profiles[DefaultProfile];
    }

    /** The aliases are put into a copy of the profile, which is then looked up. */
    static method LookupCopy(vault: Vault, p: Props, target: string, aliases: map<string, string>)
      returns (r: Outcome<Credential>, ghost order: seq<string>)
      ensures IsOrder(order, aliases.Keys)
      ensures r == Lookup(vault, p.(path := ReplaceKeys(p.path, aliases, order)), target) && !r.Panic?
    {
      var copy := new SecretProperties(p);
      order := copy.UpdateCredProfilePath(aliases);
      r := Lookup(vault, copy.Value(), target);
    }

    /** Nothing that existed before is modified, the stored profiles in particular. */
    method GetCredentials(profile: string, target: string, aliases: map<string, string>) returns (r: Outcome<Credential>)
      requires Valid()
      ensures CanObtain(r, Vault, ProfileValues(), DefaultProfile, profile, target, aliases)
      ensures !r.Panic?
    {
      ghost var order := AnyOrder(aliases.Keys);
      r := Err(Other);
      if Vault.Some? {
        var stored := ChooseProfile(profile);
        if stored != null {
          r, order := LookupCopy(Vault.value, stored.Value(), target, aliases);
        }
      }
      ObtainedBy(r, Vault, ProfileValues(), DefaultProfile, profile, target, aliases, order);
    }

    /** The refresh of the 401 branch: whatever was cached for the target goes, what Vault gives comes. */
    method Refresh(profile: string, target: string, aliases: map<string, string>) returns (r: Outcome<Credential>)
      requires Valid()
      modifies this`Creds
      ensures CanObtain(r, Vault, ProfileValues(), DefaultProfile, profile, target, aliases)
      ensures Creds == CacheAfter(old(Creds), target, true, r)
    {
      Creds := Creds - {target};
      r := GetCredentials(profile, target, aliases);
      if r.Ok? {
        Set(target, r.value);
      }
    }
  }

  ghost function AnyOrder(keys: set<string>): (order: seq<string>)
    ensures IsOrder(order, keys)
  {
    if keys == {} then [] else
      var k :| k in keys;
      [k] + AnyOrder(keys - {k})
  }
}
