/**
 * The alternate schema built on a custom user model: accounts that carry their own
 * skill fields, a tree of skills, and endorsements from one account to another for a
 * skill, keyed by (endorser, endorsee, skill). It stands apart from the core store.
 */
module CustomUser {
  import opened Common
  import opened Text
  import opened Ordering
  import opened Tables
  import Models

  type AccountId = nat
  type SkillId = nat
  type EndorsementId = nat

  // ---------------------------------------------------------------- choices

  datatype SkillLevel = Beginner | Intermediate | Advanced

  /** The one-letter code a level is stored as. */
  function LevelCode(l: SkillLevel): char {
    match l
    case Beginner => 'B'
    case Intermediate => 'I'
    case Advanced => 'A'
  }

  function LevelLabel(l: SkillLevel): string {
    match l
    case Beginner => "Beginner"
    case Intermediate => "Intermediate"
    case Advanced => "Advanced"
  }

  /** The level a stored code stands for, when it is one of the three choices. */
  function ParseLevel(c: char): (r: Option<SkillLevel>)
    ensures r.Some? <==> c == 'B' || c == 'I' || c == 'A'
    ensures r.Some? ==> LevelCode(r.value) == c
  {
    if c == 'B' then Some(Beginner)
    else if c == 'I' then Some(Intermediate)
    else if c == 'A' then Some(Advanced)
    else None
  }

  /** Codes and levels correspond one to one. */
  lemma LevelCodeRoundTrip(l: SkillLevel, m: SkillLevel)
    ensures ParseLevel(LevelCode(l)) == Some(l)
    ensures LevelCode(l) == LevelCode(m) ==> l == m
  {
  }

  /** A new account starts at the beginner level, code 'B'. */
  const DefaultSkillLevel: SkillLevel := Beginner

  const MinConfidence: int := 1
  const MaxConfidence: int := 5
  const DefaultConfidence: int := 3

  predicate ConfidenceChoice(n: int) { MinConfidence <= n <= MaxConfidence }

  /** The label of a confidence choice. */
  function ConfidenceLabel(n: int): (r: Option<string>)
    ensures r.Some? <==> ConfidenceChoice(n)
    ensures r.Some? ==> |r.value| > 0
  {
    if n == 1 then Some("Low")
    else if n == 2 then Some("Moderate")
    else if n == 3 then Some("Solid")
    else if n == 4 then Some("High")
    else if n == 5 then Some("Expert")
    else None
  }

  /** Distinct choices have distinct labels. */
  lemma ConfidenceLabelsDistinct(a: int, b: int)
    requires ConfidenceChoice(a) && ConfidenceChoice(b) && a != b
    ensures ConfidenceLabel(a) != ConfidenceLabel(b)
  {
  }

  lemma DefaultsAreChoices()
    ensures ConfidenceChoice(DefaultConfidence) && ConfidenceLabel(DefaultConfidence) == Some("Solid")
    ensures LevelCode(DefaultSkillLevel) == 'B'
  {
  }

  function DigitChar(d: nat): char
    requires d < 10
  {
    ('0' as int + d) as char
  }

  predicate IsDigit(c: char) { '0' <= c <= '9' }

  /** The digit a character stands for. */
  function DigitValue(c: char): nat {
    if IsDigit(c) then c as int - '0' as int else 0
  }

  /** The number a string of decimal digits denotes, most significant digit first. */
  function DigitsValue(s: string): nat {
    if s == [] then 0 else 10 * DigitsValue(s[..|s| - 1]) + DigitValue(s[|s| - 1])
  }

  /** The number a decimal string with an optional leading minus sign denotes. */
  function SignedValue(s: string): int {
    if |s| > 0 && s[0] == '-' then -(DigitsValue(s[1..]) as int) else DigitsValue(s)
  }

  /** The decimal digits of n, with no leading zero unless n is zero. */
  function NatString(n: nat): (r: string)
    ensures |r| > 0 && forall i :: 0 <= i < |r| ==> IsDigit(r[i])
    ensures (r[0] == '0') <==> n == 0
  {
    if n < 10 then [DigitChar(n)] else NatString(n / 10) + [DigitChar(n % 10)]
  }

  /** The decimal form of an integer, with a minus sign when negative. */
  function IntString(n: int): (r: string)
    ensures |r| > 0
    ensures (r[0] == '-') <==> n < 0
  {
    if n < 0 then "-" + NatString(-n) else NatString(n)
  }

  /** The digits of n denote n. */
  lemma {:induction false} NatStringValue(n: nat)
    ensures DigitsValue(NatString(n)) == n
  {
    var r := NatString(n);
    if n >= 10 {
      assert r[..|r| - 1] == NatString(n / 10);
      NatStringValue(n / 10);
    }
  }

  /** The decimal form of n, sign included, denotes n: str() is faithful. */
  lemma IntStringValue(n: int)
    ensures SignedValue(IntString(n)) == n
  {
    if n < 0 {
      assert IntString(n)[1..] == NatString(-n);
      NatStringValue(-n);
    } else {
      NatStringValue(n);
    }
  }

  /** The display of a confidence value: its label, or the number itself when it is not a choice. */
  function ConfidenceDisplay(n: int): (r: string)
    ensures |r| > 0
    ensures ConfidenceChoice(n) ==> Some(r) == ConfidenceLabel(n)
    ensures !ConfidenceChoice(n) ==> r == IntString(n)
  {
    match ConfidenceLabel(n)
    case Some(name) => name
    case None => IntString(n)
  }

  // ---------------------------------------------------------------- rows

  /** AbstractUser's username: required, at most 150 characters. */
  const UsernameMaxLength: nat := 150
  const BioMaxLength: nat := 500
  const LocationMaxLength: nat := 100
  const PrimarySkillMaxLength: nat := 100
  const SkillNameMaxLength: nat := 100
  const CategoryMaxLength: nat := 50

  /** The custom user: the auth fields the model uses plus the skill-focused ones. */
  datatype Account = Account(id: AccountId, username: string, bio: string, location: string,
                             primarySkill: Option<string>, skillLevel: SkillLevel)

  /** The username is required (not blank) and bounded; the other texts may be blank. */
  predicate AccountFieldsFit(a: Account) {
    && 0 < |a.username| <= UsernameMaxLength
    && |a.bio| <= BioMaxLength
    && |a.location| <= LocationMaxLength
    && (a.primarySkill.None? || |a.primarySkill.value| <= PrimarySkillMaxLength)
  }

  /** A skill, placed under an optional parent skill. */
  datatype Skill = Skill(id: SkillId, name: string, category: string, description: string,
                         parent: Option<SkillId>)

  /** name and category are required (not blank) and bounded; description may be blank. */
  predicate SkillFieldsFit(s: Skill) {
    0 < |s.name| <= SkillNameMaxLength && 0 < |s.category| <= CategoryMaxLength
  }

  /** One account vouching for another's skill with a confidence score. */
  datatype Endorsement = Endorsement(id: EndorsementId, endorser: AccountId, endorsee: AccountId,
                                     skill: SkillId, confidence: int, timestamp: nat)

  datatype Site = Site(accounts: map<AccountId, Account>, skills: map<SkillId, Skill>,
                       endorsements: map<EndorsementId, Endorsement>, nextId: nat, clock: nat)

  const EmptySite := Site(map[], map[], map[], 0, 0)

  // ---------------------------------------------------------------- display strings

  /** An account shows as its username, or as "New User" when that is empty; never as "". */
  function AccountStr(a: Account): (r: string)
    ensures |r| > 0
    ensures a.username != "" ==> r == a.username
    ensures a.username == "" ==> r == "New User"
  {
    if a.username != "" then a.username else "New User"
  }

  /** A skill shows as its name. */
  function SkillStr(s: Skill): string { s.name }

  /** "<endorser> endorses <endorsee> for <skill> (<confidence>)", from the raw usernames. */
  function EndorsementStr(site: Site, e: Endorsement): (r: string)
    requires e.endorser in site.accounts && e.endorsee in site.accounts && e.skill in site.skills
    ensures var who := site.accounts[e.endorser].username;
            |who| <= |r| && r[..|who|] == who
    ensures var shown := ConfidenceDisplay(e.confidence);
            |shown| + 3 <= |r| && r[|r| - |shown| - 3..] == " (" + shown + ")"
  {
    var head := site.accounts[e.endorser].username + " endorses " + site.accounts[e.endorsee].username + " for " +
                site.skills[e.skill].name;
    var tail := " (" + ConfidenceDisplay(e.confidence) + ")";
    assert (head + tail)[|head + tail| - |tail|..] == tail;
    head + tail
  }

  // ---------------------------------------------------------------- constraints

  ghost predicate UsernamesUnique(accounts: map<AccountId, Account>) {
    forall a, b :: a in accounts && b in accounts && accounts[a].username == accounts[b].username ==> a == b
  }

  ghost predicate SkillNamesUnique(skills: map<SkillId, Skill>) {
    forall a, b :: a in skills && b in skills && skills[a].name == skills[b].name ==> a == b
  }

  /** unique_together = (endorser, endorsee, skill). */
  ghost predicate TriplesUnique(es: map<EndorsementId, Endorsement>) {
    forall a, b :: (a in es && b in es && es[a].endorser == es[b].endorser &&
                    es[a].endorsee == es[b].endorsee && es[a].skill == es[b].skill) ==> a == b
  }

  ghost predicate AccountsOk(accounts: map<AccountId, Account>, n: nat) {
    && (forall k :: k in accounts ==> accounts[k].id == k && k < n && AccountFieldsFit(accounts[k]))
    && UsernamesUnique(accounts)
  }

  /** Skills sit under their ids, fit their columns, have unique names, and point at skills. */
  ghost predicate SkillsOk(skills: map<SkillId, Skill>, n: nat) {
    && (forall k :: k in skills ==>
          && skills[k].id == k && k < n && SkillFieldsFit(skills[k])
          && (skills[k].parent.Some? ==> skills[k].parent.value in skills))
    && SkillNamesUnique(skills)
  }

  ghost predicate EndorsementsOk(es: map<EndorsementId, Endorsement>, accounts: map<AccountId, Account>,
                                 skills: map<SkillId, Skill>, n: nat, c: nat) {
    && (forall k :: k in es ==>
          && es[k].id == k && k < n && es[k].timestamp < c
          && es[k].endorser in accounts && es[k].endorsee in accounts && es[k].skill in skills
          && ConfidenceChoice(es[k].confidence))
    && TriplesUnique(es)
  }

  ghost predicate Consistent(site: Site) {
    && AccountsOk(site.accounts, site.nextId)
    && SkillsOk(site.skills, site.nextId)
    && EndorsementsOk(site.endorsements, site.accounts, site.skills, site.nextId, site.clock)
  }

  lemma EmptySiteConsistent()
    ensures Consistent(EmptySite)
  {
  }

  predicate UsernameTaken(accounts: map<AccountId, Account>, username: string) {
    exists k :: k in accounts && accounts[k].username == username
  }

  predicate SkillNameTaken(skills: map<SkillId, Skill>, name: string) {
    exists k :: k in skills && skills[k].name == name
  }

  predicate TripleTaken(es: map<EndorsementId, Endorsement>, endorser: AccountId, endorsee: AccountId,
                        skill: SkillId) {
    exists k :: k in es && es[k].endorser == endorser && es[k].endorsee == endorsee && es[k].skill == skill
  }

  // ---------------------------------------------------------------- orderings

  /** Skill: ordering = ['name']. */
  predicate SkillByName(a: Skill, b: Skill) { StrLe(a.name, b.name) }

  /** Endorsement: ordering = ['-timestamp']. */
  predicate NewestFirst(a: Endorsement, b: Endorsement) { a.timestamp >= b.timestamp }

  function SkillListing(site: Site): seq<Skill> { Models.Listing(site.skills, site.nextId, SkillByName) }

  function EndorsementListing(site: Site): seq<Endorsement> {
    Models.Listing(site.endorsements, site.nextId, NewestFirst)
  }

  /** The skills, every one of them, in name order. */
  lemma SkillListingOrdered(site: Site)
    requires SkillsOk(site.skills, site.nextId)
    ensures forall x :: x in SkillListing(site) <==> x in site.skills.Values
    ensures SortedBy(SkillListing(site), SkillByName)
    ensures |SkillListing(site)| == |site.skills|
  {
    forall x, y ensures SkillByName(x, y) || SkillByName(y, x) {
      StrLeTotal(x.name, y.name);
    }
    forall x, y, z | SkillByName(x, y) && SkillByName(y, z) ensures SkillByName(x, z) {
      StrLeTransitive(x.name, y.name, z.name);
    }
    Models.ListingIsOrderedTable(site.skills, site.nextId, SkillByName);
  }

  /** The endorsements, every one of them, newest first. */
  lemma EndorsementListingOrdered(site: Site)
    requires Consistent(site)
    ensures forall x :: x in EndorsementListing(site) <==> x in site.endorsements.Values
    ensures SortedBy(EndorsementListing(site), NewestFirst)
    ensures |EndorsementListing(site)| == |site.endorsements|
  {
    Models.ListingIsOrderedTable(site.endorsements, site.nextId, NewestFirst);
  }

  // ---------------------------------------------------------------- transitions

  function WithAccount(site: Site, username: string, bio: string, location: string,
                       primarySkill: Option<string>, level: SkillLevel): Site {
    site.(accounts := site.accounts[site.nextId := Account(site.nextId, username, bio, location, primarySkill, level)],
          nextId := site.nextId + 1)
  }

  function WithSkill(site: Site, name: string, category: string, description: string, parent: Option<SkillId>): Site {
    site.(skills := site.skills[site.nextId := Skill(site.nextId, name, category, description, parent)],
          nextId := site.nextId + 1)
  }

  function WithEndorsement(site: Site, endorser: AccountId, endorsee: AccountId, skill: SkillId, confidence: int): Site {
    site.(endorsements := site.endorsements[site.nextId :=
            Endorsement(site.nextId, endorser, endorsee, skill, confidence, site.clock)],
          nextId := site.nextId + 1, clock := site.clock + 1)
  }

  /** A skill with its link to s cleared: parent_skill is SET_NULL. */
  function Unparented(k: Skill, s: SkillId): Skill {
    if k.parent == Some(s) then k.(parent := None) else k
  }

  /** The skills other than s, with links to s cleared. */
  function SkillsWithout(skills: map<SkillId, Skill>, s: SkillId): map<SkillId, Skill> {
    map k | k in skills && k != s :: Unparented(skills[k], s)
  }

  function EndorsementsNotFor(es: map<EndorsementId, Endorsement>, s: SkillId): map<EndorsementId, Endorsement> {
    map k | k in es && es[k].skill != s :: es[k]
  }

  function EndorsementsNotInvolving(es: map<EndorsementId, Endorsement>, u: AccountId): map<EndorsementId, Endorsement> {
    map k | k in es && es[k].endorser != u && es[k].endorsee != u :: es[k]
  }

  /** Deleting a skill: its sub-skills lose their parent, its endorsements go (CASCADE). */
  function AfterDeleteSkill(site: Site, s: SkillId): Site {
    site.(skills := SkillsWithout(site.skills, s), endorsements := EndorsementsNotFor(site.endorsements, s))
  }

  /** Deleting an account: endorsements it gave or received go (CASCADE on both keys). */
  function AfterDeleteAccount(site: Site, u: AccountId): Site {
    site.(accounts := site.accounts - {u}, endorsements := EndorsementsNotInvolving(site.endorsements, u))
  }

  function AfterDeleteEndorsement(site: Site, e: EndorsementId): Site {
    site.(endorsements := site.endorsements - {e})
  }

  // ---------------------------------------------------------------- consistency is kept

  lemma AccountsInsert(accounts: map<AccountId, Account>, n: nat, a: Account)
    requires AccountsOk(accounts, n) && a.id == n && AccountFieldsFit(a) && !UsernameTaken(accounts, a.username)
    ensures AccountsOk(accounts[n := a], n + 1)
  {
    assert forall k :: k in accounts ==> accounts[k].username != a.username;
  }

  lemma SkillsInsert(skills: map<SkillId, Skill>, n: nat, s: Skill)
    requires SkillsOk(skills, n) && s.id == n && SkillFieldsFit(s) && !SkillNameTaken(skills, s.name)
    requires s.parent.Some? ==> s.parent.value in skills
    ensures SkillsOk(skills[n := s], n + 1)
  {
    var t := skills[n := s];
    assert n !in skills;
    forall k | k in t
      ensures t[k].id == k && k < n + 1 && SkillFieldsFit(t[k])
      ensures t[k].parent.Some? ==> t[k].parent.value in t
    {
      if k != n {
        assert t[k] == skills[k];
      }
    }
    assert forall k :: k in skills ==> skills[k].name != s.name;
    assert SkillNamesUnique(t);
  }

  lemma EndorsementsInsert(es: map<EndorsementId, Endorsement>, accounts: map<AccountId, Account>,
                           skills: map<SkillId, Skill>, n: nat, c: nat, e: Endorsement)
    requires EndorsementsOk(es, accounts, skills, n, c) && e.id == n && e.timestamp == c
    requires e.endorser in accounts && e.endorsee in accounts && e.skill in skills && ConfidenceChoice(e.confidence)
    requires !TripleTaken(es, e.endorser, e.endorsee, e.skill)
    ensures EndorsementsOk(es[n := e], accounts, skills, n + 1, c + 1)
  {
    assert forall k :: k in es ==> !(es[k].endorser == e.endorser && es[k].endorsee == e.endorsee && es[k].skill == e.skill);
  }

  lemma EndorsementsGrow(es: map<EndorsementId, Endorsement>, accounts: map<AccountId, Account>,
                         accounts': map<AccountId, Account>, skills: map<SkillId, Skill>,
                         skills': map<SkillId, Skill>, n: nat, n': nat, c: nat, c': nat)
    requires EndorsementsOk(es, accounts, skills, n, c)
    requires accounts.Keys <= accounts'.Keys && skills.Keys <= skills'.Keys && n <= n' && c <= c'
    ensures EndorsementsOk(es, accounts', skills', n', c')
  {
  }

  lemma WithAccountConsistent(site: Site, username: string, bio: string, location: string,
                              primarySkill: Option<string>, level: SkillLevel)
    requires Consistent(site) && !UsernameTaken(site.accounts, username)
    requires AccountFieldsFit(Account(site.nextId, username, bio, location, primarySkill, level))
    ensures Consistent(WithAccount(site, username, bio, location, primarySkill, level))
  {
    var n := site.nextId;
    AccountsInsert(site.accounts, n, Account(n, username, bio, location, primarySkill, level));
    EndorsementsGrow(site.endorsements, site.accounts, site.accounts[n := Account(n, username, bio, location, primarySkill, level)],
                     site.skills, site.skills, n, n + 1, site.clock, site.clock);
  }

  lemma WithSkillConsistent(site: Site, name: string, category: string, description: string, parent: Option<SkillId>)
    requires Consistent(site) && !SkillNameTaken(site.skills, name)
    requires SkillFieldsFit(Skill(site.nextId, name, category, description, parent))
    requires parent.Some? ==> parent.value in site.skills
    ensures Consistent(WithSkill(site, name, category, description, parent))
  {
    var n := site.nextId;
    SkillsInsert(site.skills, n, Skill(n, name, category, description, parent));
    EndorsementsGrow(site.endorsements, site.accounts, site.accounts, site.skills,
                     site.skills[n := Skill(n, name, category, description, parent)], n, n + 1, site.clock, site.clock);
  }

  lemma WithEndorsementConsistent(site: Site, endorser: AccountId, endorsee: AccountId, skill: SkillId, confidence: int)
    requires Consistent(site) && endorser in site.accounts && endorsee in site.accounts && skill in site.skills
    requires ConfidenceChoice(confidence) && !TripleTaken(site.endorsements, endorser, endorsee, skill)
    ensures Consistent(WithEndorsement(site, endorser, endorsee, skill, confidence))
  {
    EndorsementsInsert(site.endorsements, site.accounts, site.skills, site.nextId, site.clock,
                       Endorsement(site.nextId, endorser, endorsee, skill, confidence, site.clock));
  }

  lemma SkillsWithoutOk(skills: map<SkillId, Skill>, n: nat, s: SkillId)
    requires SkillsOk(skills, n)
    ensures SkillsOk(SkillsWithout(skills, s), n)
  {
    var r := SkillsWithout(skills, s);
    forall k | k in r
      ensures r[k].id == k && k < n && SkillFieldsFit(r[k])
      ensures r[k].parent.Some? ==> r[k].parent.value in r
    {
      assert r[k] == Unparented(skills[k], s);
    }
    forall a, b | a in r && b in r && r[a].name == r[b].name ensures a == b {
      assert skills[a].name == r[a].name && skills[b].name == r[b].name;
    }
  }

  lemma AfterDeleteSkillConsistent(site: Site, s: SkillId)
    requires Consistent(site)
    ensures Consistent(AfterDeleteSkill(site, s))
  {
    SkillsWithoutOk(site.skills, site.nextId, s);
    var es := EndorsementsNotFor(site.endorsements, s);
    assert SkillsWithout(site.skills, s).Keys == site.skills.Keys - {s};
    assert forall k :: k in es ==> es[k] == site.endorsements[k];
  }

  lemma AfterDeleteAccountConsistent(site: Site, u: AccountId)
    requires Consistent(site)
    ensures Consistent(AfterDeleteAccount(site, u))
  {
    var es := EndorsementsNotInvolving(site.endorsements, u);
    assert forall k :: k in es ==> es[k] == site.endorsements[k];
  }

  lemma AfterDeleteEndorsementConsistent(site: Site, e: EndorsementId)
    requires Consistent(site)
    ensures Consistent(AfterDeleteEndorsement(site, e))
  {
  }

  // ---------------------------------------------------------------- deletion policies

  /**
   * Deleting a skill removes it and every endorsement for it, and keeps every other skill
   * with its fields, except that a sub-skill of it now has no parent.
   */
  lemma SkillDeletionOrphans(site: Site, s: SkillId)
    ensures var after := AfterDeleteSkill(site, s);
      && s !in after.skills
      && (forall k :: k in site.skills && k != s ==>
            && k in after.skills
            && after.skills[k].name == site.skills[k].name
            && after.skills[k].parent == (if site.skills[k].parent == Some(s) then None else site.skills[k].parent))
      && (forall k :: k in after.skills ==> after.skills[k].parent != Some(s))
      && (forall k :: k in site.endorsements ==> (k in after.endorsements <==> site.endorsements[k].skill != s))
      && after.accounts == site.accounts
  {
  }

  /** Deleting an account removes exactly the endorsements it gave or received. */
  lemma AccountDeletionCascades(site: Site, u: AccountId)
    ensures var after := AfterDeleteAccount(site, u);
      && u !in after.accounts && after.skills == site.skills
      && (forall k :: k in site.endorsements ==>
            (k in after.endorsements <==>
               site.endorsements[k].endorser != u && site.endorsements[k].endorsee != u))
      && (forall k :: k in after.endorsements ==> after.endorsements[k] == site.endorsements[k])
  {
  }

  /** In a consistent site an (endorser, endorsee, skill) triple names at most one endorsement. */
  lemma OneEndorsementPerTriple(site: Site, a: EndorsementId, b: EndorsementId)
    requires Consistent(site) && a in site.endorsements && b in site.endorsements
    requires site.endorsements[a].endorser == site.endorsements[b].endorser
    requires site.endorsements[a].endorsee == site.endorsements[b].endorsee
    requires site.endorsements[a].skill == site.endorsements[b].skill
    ensures a == b
  {
  }

  // ---------------------------------------------------------------- the store

  /** The tables of the alternate schema, changed in place. */
  class Registry {
    var accounts: map<AccountId, Account>
    var skills: map<SkillId, Skill>
    var endorsements: map<EndorsementId, Endorsement>
    var nextId: nat
    var clock: nat

    function Snapshot(): Site
      reads this
    {
      Site(accounts, skills, endorsements, nextId, clock)
    }

    ghost predicate Valid()
      reads this
    {
      Consistent(Snapshot())
    }

    constructor ()
      ensures Snapshot() == EmptySite && Valid()
    {
      accounts, skills, endorsements := map[], map[], map[];
      nextId, clock := 0, 0;
    }

    /**
     * Saves an account after the checks a model form makes: a username that is given
     * and fits, the field lengths (the bio's included, which only forms enforce), and a
     * username no other account has. The level defaults to beginner.
     */
    method AddAccount(username: string, bio: string, location: string, primarySkill: Option<string>,
                      level: Option<SkillLevel>) returns (r: Result<AccountId>)
      requires Valid()
      modifies this
      ensures Valid()
      ensures r.Err? ==> Snapshot() == old(Snapshot())
      ensures r.Err? <==> |username| == 0 || |username| > UsernameMaxLength ||
                          |bio| > BioMaxLength || |location| > LocationMaxLength ||
                          (primarySkill.Some? && |primarySkill.value| > PrimarySkillMaxLength) ||
                          UsernameTaken(old(accounts), username)
      ensures r.Ok? ==> (r.value == old(nextId) &&
        Snapshot() == WithAccount(old(Snapshot()), username, bio, location, primarySkill,
                                  if level.Some? then level.value else DefaultSkillLevel))
    {
      if |username| == 0 || |username| > UsernameMaxLength {
        return Err(Invalid("username"));
      }
      if |bio| > BioMaxLength {
        return Err(Invalid("bio"));
      }
      if |location| > LocationMaxLength {
        return Err(Invalid("location"));
      }
      if primarySkill.Some? && |primarySkill.value| > PrimarySkillMaxLength {
        return Err(Invalid("primary_skill"));
      }
      if UsernameTaken(accounts, username) {
        return Err(Conflict("username"));
      }
      var lv := if level.Some? then level.value else DefaultSkillLevel;
      ghost var d := WithAccount(Snapshot(), username, bio, location, primarySkill, lv);
      WithAccountConsistent(Snapshot(), username, bio, location, primarySkill, lv);
      accounts := accounts[nextId := Account(nextId, username, bio, location, primarySkill, lv)];
      r := Ok(nextId);
      nextId := nextId + 1;
      assert Snapshot() == d;
    }

    /** Saves a skill: its fields fit, its name is new, and its parent, if any, exists. */
    method AddSkill(name: string, category: string, description: string, parent: Option<SkillId>)
      returns (r: Result<SkillId>)
      requires Valid()
      modifies this
      ensures Valid()
      ensures r.Err? ==> Snapshot() == old(Snapshot())
      ensures r.Err? <==> |name| == 0 || |name| > SkillNameMaxLength || |category| == 0 || |category| > CategoryMaxLength ||
                          SkillNameTaken(old(skills), name) || (parent.Some? && parent.value !in old(skills))
      ensures r.Ok? ==> r.value == old(nextId) && Snapshot() == WithSkill(old(Snapshot()), name, category, description, parent)
    {
      if |name| == 0 || |name| > SkillNameMaxLength {
        return Err(Invalid("name"));
      }
      if |category| == 0 || |category| > CategoryMaxLength {
        return Err(Invalid("category"));
      }
      if SkillNameTaken(skills, name) {
        return Err(Conflict("name"));
      }
      if parent.Some? && parent.value !in skills {
        return Err(Conflict("foreign key"));
      }
      ghost var d := WithSkill(Snapshot(), name, category, description, parent);
      WithSkillConsistent(Snapshot(), name, category, description, parent);
      skills := skills[nextId := Skill(nextId, name, category, description, parent)];
      r := Ok(nextId);
      nextId := nextId + 1;
      assert Snapshot() == d;
    }

    /**
     * Saves an endorsement stamped with the current time. The confidence defaults to 3 and
     * must be a choice; the three keys must exist; the triple must be new.
     */
    method AddEndorsement(endorser: AccountId, endorsee: AccountId, skill: SkillId, confidence: Option<int>)
      returns (r: Result<EndorsementId>)
      requires Valid()
      modifies this
      ensures Valid()
      ensures r.Err? ==> Snapshot() == old(Snapshot())
      ensures r.Err? <==> (confidence.Some? && !ConfidenceChoice(confidence.value)) ||
                          endorser !in old(accounts) || endorsee !in old(accounts) || skill !in old(skills) ||
                          TripleTaken(old(endorsements), endorser, endorsee, skill)
      ensures r.Ok? ==> (r.value == old(nextId) &&
        Snapshot() == WithEndorsement(old(Snapshot()), endorser, endorsee, skill,
                                      if confidence.Some? then confidence.value else DefaultConfidence))
    {
      if confidence.Some? && !ConfidenceChoice(confidence.value) {
        return Err(Invalid("confidence_level"));
      }
      if endorser !in accounts || endorsee !in accounts || skill !in skills {
        return Err(Conflict("foreign key"));
      }
      if TripleTaken(endorsements, endorser, endorsee, skill) {
        return Err(Conflict("unique (endorser, endorsee, skill)"));
      }
      var level := if confidence.Some? then confidence.value else DefaultConfidence;
      ghost var d := WithEndorsement(Snapshot(), endorser, endorsee, skill, level);
      WithEndorsementConsistent(Snapshot(), endorser, endorsee, skill, level);
      endorsements := endorsements[nextId := Endorsement(nextId, endorser, endorsee, skill, level, clock)];
      r := Ok(nextId);
      nextId := nextId + 1;
      clock := clock + 1;
      assert Snapshot() == d;
    }

    /** Drops skill s and its endorsements; its sub-skills stay, without a parent. */
    method DeleteSkill(s: SkillId)
      requires Valid()
      modifies this
      ensures Valid()
      ensures Snapshot() == AfterDeleteSkill(old(Snapshot()), s)
    {
      ghost var d := AfterDeleteSkill(Snapshot(), s);
      AfterDeleteSkillConsistent(Snapshot(), s);
      UnlinkSkill(s);
      DropEndorsementsFor(s);
      assert Snapshot() == d;
    }

    /** Walks the skills, keeping every one but s and clearing each link to s. */
    method UnlinkSkill(s: SkillId)
      modifies this
      ensures skills == SkillsWithout(old(skills), s)
      ensures accounts == old(accounts) && endorsements == old(endorsements)
      ensures nextId == old(nextId) && clock == old(clock)
    {
      var r: map<SkillId, Skill> := map[];
      var todo := skills.Keys;
      while todo != {}
        invariant todo <= skills.Keys
        invariant r == map k | k in skills.Keys - todo && k != s :: Unparented(skills[k], s)
        decreases todo
      {
        var k :| k in todo;
        if k != s {
          r := r[k := Unparented(skills[k], s)];
        }
        todo := todo - {k};
      }
      skills := r;
    }

    /** Walks the endorsements and keeps those not for skill s. */
    method DropEndorsementsFor(s: SkillId)
      modifies this
      ensures endorsements == EndorsementsNotFor(old(endorsements), s)
      ensures accounts == old(accounts) && skills == old(skills)
      ensures nextId == old(nextId) && clock == old(clock)
    {
      endorsements := FilterRows(endorsements, (e: Endorsement) => e.skill != s);
    }

    /** Drops the account and every endorsement it gave or received. */
    method DeleteAccount(u: AccountId)
      requires Valid()
      modifies this
      ensures Valid()
      ensures Snapshot() == AfterDeleteAccount(old(Snapshot()), u)
    {
      ghost var d := AfterDeleteAccount(Snapshot(), u);
      AfterDeleteAccountConsistent(Snapshot(), u);
      DropEndorsementsInvolving(u);
      accounts := accounts - {u};
      assert Snapshot() == d;
    }

    /** Walks the endorsements and keeps those u neither gave nor received. */
    method DropEndorsementsInvolving(u: AccountId)
      modifies this
      ensures endorsements == EndorsementsNotInvolving(old(endorsements), u)
      ensures accounts == old(accounts) && skills == old(skills)
      ensures nextId == old(nextId) && clock == old(clock)
    {
      endorsements := FilterRows(endorsements, (e: Endorsement) => e.endorser != u && e.endorsee != u);
    }

    method DeleteEndorsement(e: EndorsementId)
      requires Valid()
      modifies this
      ensures Valid()
      ensures Snapshot() == AfterDeleteEndorsement(old(Snapshot()), e)
    {
      AfterDeleteEndorsementConsistent(Snapshot(), e);
      endorsements := endorsements - {e};
    }
  }
}
