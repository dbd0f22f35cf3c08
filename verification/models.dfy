/**
 * The relational schema of the core app: the five model classes, the auth user they
 * point at, the constraints declared on their fields and Meta classes, their default
 * orderings and display strings, and what deleting a row does to the rows that refer
 * to it (CASCADE or SET_NULL).
 */
module Models {
  import opened Common
  import opened Text
  import opened Ordering
  import opened Tables

  type UserId = nat
  type SkillId = nat
  type CardId = nat
  type PostId = nat
  type EndorsementId = nat

  const MinRating: int := 1
  const MaxRating: int := 5
  const DefaultSelfRating: int := 1
  const DefaultIsPublic: bool := true
  const SkillNameMaxLength: nat := 100
  const LocationMaxLength: nat := 100
  /** The length limit a URL field gets when none is declared. */
  const PictureUrlMaxLength: nat := 200

  predicate RatingInRange(n: int) { MinRating <= n <= MaxRating }

  /** A nullable rating: absent, or within the 1..5 validators. */
  predicate OptionalRatingInRange(r: Option<int>) { r.None? || RatingInRange(r.value) }

  predicate OptionalWithin(s: Option<string>, max: nat) { s.None? || |s.value| <= max }

  // ---------------------------------------------------------------- rows

  /** The framework's auth user, as far as the core reads it. */
  datatype User = User(id: UserId, username: string, firstName: string, lastName: string)

  datatype Skill = Skill(id: SkillId, name: string, description: Option<string>)

  /** One profile per user: the user's id is the profile's primary key. */
  datatype SkillProfile = SkillProfile(user: UserId, bio: Option<string>, location: Option<string>,
                                       pictureUrl: Option<string>)

  /** A skill card: a profile's claim to a skill, the thing endorsements point at. */
  datatype UserSkill = UserSkill(id: CardId, profile: UserId, skill: SkillId, selfRating: int, isPublic: bool)

  datatype Post = Post(id: PostId, author: UserId, content: string, relatedSkill: Option<SkillId>,
                       createdAt: nat)

  datatype Endorsement = Endorsement(id: EndorsementId, endorser: UserId, skillCard: CardId,
                                     comment: Option<string>, endorserRating: Option<int>,
                                     endorsedAt: nat)

  /**
   * A snapshot of the database: one map per table, the next fresh row id (standing in
   * for UUID and auto-increment keys) and a clock that stamps created_at / endorsed_at.
   */
  datatype Db = Db(users: map<UserId, User>, skills: map<SkillId, Skill>,
                   profiles: map<UserId, SkillProfile>, cards: map<CardId, UserSkill>,
                   posts: map<PostId, Post>, endorsements: map<EndorsementId, Endorsement>,
                   nextId: nat, clock: nat)

  const EmptyDb := Db(map[], map[], map[], map[], map[], map[], 0, 0)

  // ---------------------------------------------------------------- schema

  ghost predicate UsernamesUnique(users: map<UserId, User>) {
    forall a, b :: a in users && b in users && users[a].username == users[b].username ==> a == b
  }

  /** Skill.name is declared unique. */
  ghost predicate SkillNamesUnique(skills: map<SkillId, Skill>) {
    forall a, b :: a in skills && b in skills && skills[a].name == skills[b].name ==> a == b
  }

  /** UserSkill: unique_together = (profile, skill). */
  ghost predicate CardPairsUnique(cards: map<CardId, UserSkill>) {
    forall a, b :: (a in cards && b in cards && cards[a].profile == cards[b].profile &&
                    cards[a].skill == cards[b].skill) ==> a == b
  }

  /** Endorsement: unique_together = (endorser, skill_card). */
  ghost predicate EndorsementPairsUnique(es: map<EndorsementId, Endorsement>) {
    forall a, b :: (a in es && b in es && es[a].endorser == es[b].endorser &&
                    es[a].skillCard == es[b].skillCard) ==> a == b
  }

  /*
   * One predicate per table, over that table and the tables it points at. Each says: rows
   * sit under their own key, ids were handed out (below nextId), timestamps were stamped
   * (below clock), foreign keys resolve, field validators hold, unique constraints hold.
   */

  ghost predicate UsersOk(users: map<UserId, User>, nextId: nat) {
    && (forall k :: k in users ==> users[k].id == k && k < nextId)
    && UsernamesUnique(users)
  }

  ghost predicate SkillsOk(skills: map<SkillId, Skill>, nextId: nat) {
    && (forall k :: k in skills ==> skills[k].id == k && k < nextId && |skills[k].name| <= SkillNameMaxLength)
    && SkillNamesUnique(skills)
  }

  /** A profile's primary key is its user, so a user has at most one profile. */
  ghost predicate ProfilesOk(profiles: map<UserId, SkillProfile>, users: map<UserId, User>) {
    forall k :: k in profiles ==>
      && profiles[k].user == k && k in users
      && OptionalWithin(profiles[k].location, LocationMaxLength)
      && OptionalWithin(profiles[k].pictureUrl, PictureUrlMaxLength)
  }

  ghost predicate CardsOk(cards: map<CardId, UserSkill>, profiles: map<UserId, SkillProfile>,
                          skills: map<SkillId, Skill>, nextId: nat) {
    && (forall k :: k in cards ==>
          && cards[k].id == k && k < nextId
          && cards[k].profile in profiles && cards[k].skill in skills
          && RatingInRange(cards[k].selfRating))
    && CardPairsUnique(cards)
  }

  ghost predicate PostsOk(posts: map<PostId, Post>, users: map<UserId, User>, skills: map<SkillId, Skill>,
                          nextId: nat, clock: nat) {
    forall k :: k in posts ==>
      && posts[k].id == k && k < nextId && posts[k].createdAt < clock
      && posts[k].author in users
      && (posts[k].relatedSkill.Some? ==> posts[k].relatedSkill.value in skills)
  }

  ghost predicate EndorsementsOk(es: map<EndorsementId, Endorsement>, users: map<UserId, User>,
                                 cards: map<CardId, UserSkill>, nextId: nat, clock: nat) {
    && (forall k :: k in es ==>
          && es[k].id == k && k < nextId && es[k].endorsedAt < clock
          && es[k].endorser in users && es[k].skillCard in cards
          && OptionalRatingInRange(es[k].endorserRating))
    && EndorsementPairsUnique(es)
  }

  /** Every table's declared constraints hold. */
  ghost predicate Schema(db: Db) {
    && UsersOk(db.users, db.nextId)
    && SkillsOk(db.skills, db.nextId)
    && ProfilesOk(db.profiles, db.users)
    && CardsOk(db.cards, db.profiles, db.skills, db.nextId)
    && PostsOk(db.posts, db.users, db.skills, db.nextId, db.clock)
    && EndorsementsOk(db.endorsements, db.users, db.cards, db.nextId, db.clock)
  }

  lemma EmptyDbSatisfiesSchema()
    ensures Schema(EmptyDb)
  {
  }

  /** Every id in a valid database was handed out, so listing ids below nextId lists every row. */
  lemma SchemaKeysBelow(db: Db)
    requires Schema(db)
    ensures KeysBelow(db.users, db.nextId) && KeysBelow(db.skills, db.nextId)
    ensures KeysBelow(db.cards, db.nextId) && KeysBelow(db.posts, db.nextId)
    ensures KeysBelow(db.endorsements, db.nextId)
  {
  }

  ghost predicate SubMap<K, V>(a: map<K, V>, b: map<K, V>) {
    forall k :: k in a ==> k in b && a[k] == b[k]
  }

  // ---------------------------------------------------------------- default orderings

  /** Skill: ordering = ['name']. */
  predicate SkillByName(a: Skill, b: Skill) { StrLe(a.name, b.name) }

  /** Post: ordering = ['-created_at'], newest first. */
  predicate NewestPostFirst(a: Post, b: Post) { a.createdAt >= b.createdAt }

  /** Endorsement: ordering = ['-endorsed_at'], newest first. */
  predicate NewestEndorsementFirst(a: Endorsement, b: Endorsement) { a.endorsedAt >= b.endorsedAt }

  /** The name of a card's skill, as the join skill__name reads it. */
  function SkillNameOf(skills: map<SkillId, Skill>, s: SkillId): string {
    if s in skills then skills[s].name else ""
  }

  /** UserSkill: ordering = ['skill__name']. */
  function CardBySkillName(skills: map<SkillId, Skill>): (UserSkill, UserSkill) -> bool {
    (a: UserSkill, b: UserSkill) => StrLe(SkillNameOf(skills, a.skill), SkillNameOf(skills, b.skill))
  }

  lemma SkillOrderIsTotal()
    ensures TotalPreorder(SkillByName)
  {
    forall x: Skill, y: Skill ensures SkillByName(x, y) || SkillByName(y, x) {
      StrLeTotal(x.name, y.name);
    }
    forall x: Skill, y: Skill, z: Skill | SkillByName(x, y) && SkillByName(y, z) ensures SkillByName(x, z) {
      StrLeTransitive(x.name, y.name, z.name);
    }
  }

  lemma CardOrderIsTotal(skills: map<SkillId, Skill>)
    ensures TotalPreorder(CardBySkillName(skills))
  {
    var le := CardBySkillName(skills);
    forall x: UserSkill, y: UserSkill ensures le(x, y) || le(y, x) {
      StrLeTotal(SkillNameOf(skills, x.skill), SkillNameOf(skills, y.skill));
    }
    forall x: UserSkill, y: UserSkill, z: UserSkill | le(x, y) && le(y, z) ensures le(x, z) {
      StrLeTransitive(SkillNameOf(skills, x.skill), SkillNameOf(skills, y.skill), SkillNameOf(skills, z.skill));
    }
  }

  lemma NewestFirstIsTotal()
    ensures TotalPreorder(NewestPostFirst) && TotalPreorder(NewestEndorsementFirst)
  {
  }

  /** Two skills the ordering cannot tell apart are the same skill, since names are unique. */
  lemma SkillOrderIsStrict(db: Db, a: SkillId, b: SkillId)
    requires Schema(db) && a in db.skills && b in db.skills
    requires SkillByName(db.skills[a], db.skills[b]) && SkillByName(db.skills[b], db.skills[a])
    ensures a == b
  {
    StrLeAntisymmetric(db.skills[a].name, db.skills[b].name);
  }

  // ---------------------------------------------------------------- listings

  /** A table's rows in its default ordering. */
  function Listing<T(!new)>(m: map<nat, T>, n: nat, le: (T, T) -> bool): seq<T> {
    SortBy(Rows(m, n), le)
  }

  /** A listing holds exactly the table's rows, and holds them in order. */
  lemma {:induction false} ListingIsOrderedTable<T(!new)>(m: map<nat, T>, n: nat, le: (T, T) -> bool)
    requires KeysBelow(m, n) && TotalPreorder(le)
    ensures forall x :: x in Listing(m, n, le) <==> x in m.Values
    ensures SortedBy(Listing(m, n, le), le)
    ensures |Listing(m, n, le)| == |m|
  {
    RowsAreValues(m, n);
    RowsCountAll(m, n);
    assert |multiset(Listing(m, n, le))| == |multiset(Rows(m, n))|;
    forall x ensures x in Listing(m, n, le) <==> x in m.Values {
      SortByMembers(Rows(m, n), le, x);
    }
    SortByIsSorted(Rows(m, n), le);
  }

  function SkillListing(db: Db): seq<Skill> { Listing(db.skills, db.nextId, SkillByName) }

  function PostListing(db: Db): seq<Post> { Listing(db.posts, db.nextId, NewestPostFirst) }

  function EndorsementListing(db: Db): seq<Endorsement> {
    Listing(db.endorsements, db.nextId, NewestEndorsementFirst)
  }

  /** The skills, every one of them, by name. */
  lemma SkillListingOrdered(db: Db)
    requires Schema(db)
    ensures forall x :: x in SkillListing(db) <==> x in db.skills.Values
    ensures SortedBy(SkillListing(db), SkillByName)
    ensures |SkillListing(db)| == |db.skills|
  {
    SkillOrderIsTotal();
    ListingIsOrderedTable(db.skills, db.nextId, SkillByName);
  }

  /** All posts, newest first. */
  lemma PostListingOrdered(db: Db)
    requires Schema(db)
    ensures forall x :: x in PostListing(db) <==> x in db.posts.Values
    ensures SortedBy(PostListing(db), NewestPostFirst)
    ensures |PostListing(db)| == |db.posts|
  {
    NewestFirstIsTotal();
    ListingIsOrderedTable(db.posts, db.nextId, NewestPostFirst);
  }

  /** All endorsements, newest first. */
  lemma EndorsementListingOrdered(db: Db)
    requires Schema(db)
    ensures forall x :: x in EndorsementListing(db) <==> x in db.endorsements.Values
    ensures SortedBy(EndorsementListing(db), NewestEndorsementFirst)
    ensures |EndorsementListing(db)| == |db.endorsements|
  {
    NewestFirstIsTotal();
    ListingIsOrderedTable(db.endorsements, db.nextId, NewestEndorsementFirst);
  }

  /** The cards on one profile, ordered by skill name: the reverse relation a profile lists. */
  function CardsOfProfileListing(db: Db, u: UserId): seq<UserSkill> {
    SortBy(Filter(Rows(db.cards, db.nextId), (c: UserSkill) => c.profile == u), CardBySkillName(db.skills))
  }

  lemma CardsOfProfileListingOrdered(db: Db, u: UserId)
    requires Schema(db)
    ensures forall x :: x in CardsOfProfileListing(db, u) <==> x in db.cards.Values && x.profile == u
    ensures SortedBy(CardsOfProfileListing(db, u), CardBySkillName(db.skills))
  {
    var mine := Filter(Rows(db.cards, db.nextId), (c: UserSkill) => c.profile == u);
    RowsAreValues(db.cards, db.nextId);
    forall x ensures x in CardsOfProfileListing(db, u) <==> x in db.cards.Values && x.profile == u {
      SortByMembers(mine, CardBySkillName(db.skills), x);
    }
    CardOrderIsTotal(db.skills);
    SortByIsSorted(mine, CardBySkillName(db.skills));
  }

  // ---------------------------------------------------------------- display strings

  function SkillLabel(s: Skill): string { s.name }

  function ProfileLabel(db: Db, p: SkillProfile): string
    requires p.user in db.users
  {
    "Profile for " + db.users[p.user].username
  }

  function CardLabel(db: Db, c: UserSkill): string
    requires c.profile in db.users && c.skill in db.skills
  {
    db.users[c.profile].username + "'s " + db.skills[c.skill].name
  }

  function PostLabel(db: Db, p: Post): string
    requires p.author in db.users
  {
    "Post by " + db.users[p.author].username
  }

  function EndorsementLabel(db: Db, e: Endorsement): string
    requires e.skillCard in db.cards
    requires db.cards[e.skillCard].profile in db.users && db.cards[e.skillCard].skill in db.skills
  {
    "Endorsement for " + db.users[db.cards[e.skillCard].profile].username + "'s " +
    db.skills[db.cards[e.skillCard].skill].name
  }

  lemma PrefixedLabelsDiffer(prefix: string, a: string, b: string)
    requires prefix + a == prefix + b
    ensures a == b
  {
    assert a == (prefix + a)[|prefix|..];
    assert b == (prefix + b)[|prefix|..];
  }

  /** A profile's display string names it: two profiles share one only if they are the same. */
  lemma ProfileLabelIdentifies(db: Db, a: UserId, b: UserId)
    requires Schema(db) && a in db.profiles && b in db.profiles
    ensures ProfileLabel(db, db.profiles[a]) == ProfileLabel(db, db.profiles[b]) <==> a == b
  {
    if ProfileLabel(db, db.profiles[a]) == ProfileLabel(db, db.profiles[b]) {
      PrefixedLabelsDiffer("Profile for ", db.users[a].username, db.users[b].username);
    }
  }

  /** Two posts read the same exactly when they have the same author. */
  lemma PostLabelNamesAuthor(db: Db, p: Post, q: Post)
    requires Schema(db) && p.author in db.users && q.author in db.users
    ensures PostLabel(db, p) == PostLabel(db, q) <==> p.author == q.author
  {
    if PostLabel(db, p) == PostLabel(db, q) {
      PrefixedLabelsDiffer("Post by ", db.users[p.author].username, db.users[q.author].username);
    }
  }

  /** An endorsement displays as its card's display string under a fixed heading. */
  lemma EndorsementLabelShowsCard(db: Db, e: Endorsement)
    requires Schema(db) && e in db.endorsements.Values
    ensures e.skillCard in db.cards && db.cards[e.skillCard].profile in db.users
    ensures db.cards[e.skillCard].skill in db.skills
    ensures EndorsementLabel(db, e) == "Endorsement for " + CardLabel(db, db.cards[e.skillCard])
  {
  }

  // ---------------------------------------------------------------- constraint probes

  predicate UsernameTaken(users: map<UserId, User>, username: string) {
    exists k :: k in users && users[k].username == username
  }

  predicate SkillNameTaken(skills: map<SkillId, Skill>, name: string) {
    exists k :: k in skills && skills[k].name == name
  }

  predicate CardPairTaken(cards: map<CardId, UserSkill>, profile: UserId, skill: SkillId) {
    exists k :: k in cards && cards[k].profile == profile && cards[k].skill == skill
  }

  predicate EndorsementPairTaken(es: map<EndorsementId, Endorsement>, endorser: UserId, card: CardId) {
    exists k :: k in es && es[k].endorser == endorser && es[k].skillCard == card
  }

  /** Another endorsement than e already joins this endorser to this card. */
  predicate EndorsementPairTakenByOther(es: map<EndorsementId, Endorsement>, e: EndorsementId,
                                        endorser: UserId, card: CardId) {
    exists k :: k in es && k != e && es[k].endorser == endorser && es[k].skillCard == card
  }

  // ---------------------------------------------------------------- inserts

  /** A profile with every optional field left null, as get_or_create makes it. */
  function BlankProfile(u: UserId): SkillProfile {
    SkillProfile(u, None, None, None)
  }

  function WithUser(db: Db, username: string, firstName: string, lastName: string): Db {
    db.(users := db.users[db.nextId := User(db.nextId, username, firstName, lastName)],
        nextId := db.nextId + 1)
  }

  function WithSkill(db: Db, name: string, description: Option<string>): Db {
    db.(skills := db.skills[db.nextId := Skill(db.nextId, name, description)], nextId := db.nextId + 1)
  }

  function WithProfile(db: Db, u: UserId): Db {
    db.(profiles := db.profiles[u := BlankProfile(u)])
  }

  function WithCard(db: Db, profile: UserId, skill: SkillId, selfRating: int, isPublic: bool): Db {
    db.(cards := db.cards[db.nextId := UserSkill(db.nextId, profile, skill, selfRating, isPublic)],
        nextId := db.nextId + 1)
  }

  function WithPost(db: Db, author: UserId, content: string, relatedSkill: Option<SkillId>): Db {
    db.(posts := db.posts[db.nextId := Post(db.nextId, author, content, relatedSkill, db.clock)],
        nextId := db.nextId + 1, clock := db.clock + 1)
  }

  function WithEndorsement(db: Db, endorser: UserId, card: CardId, comment: Option<string>,
                           rating: Option<int>): Db {
    db.(endorsements := db.endorsements[db.nextId :=
          Endorsement(db.nextId, endorser, card, comment, rating, db.clock)],
        nextId := db.nextId + 1, clock := db.clock + 1)
  }

  // ---------------------------------------------------------------- table lemmas

  /* A table stays valid when the tables it points at only gain rows and the counters only grow. */

  lemma UsersGrow(users: map<UserId, User>, n: nat, n': nat)
    requires UsersOk(users, n) && n <= n'
    ensures UsersOk(users, n')
  {
  }

  lemma SkillsGrow(skills: map<SkillId, Skill>, n: nat, n': nat)
    requires SkillsOk(skills, n) && n <= n'
    ensures SkillsOk(skills, n')
  {
  }

  lemma ProfilesGrow(profiles: map<UserId, SkillProfile>, users: map<UserId, User>, users': map<UserId, User>)
    requires ProfilesOk(profiles, users) && users.Keys <= users'.Keys
    ensures ProfilesOk(profiles, users')
  {
  }

  lemma CardsGrow(cards: map<CardId, UserSkill>, profiles: map<UserId, SkillProfile>,
                  profiles': map<UserId, SkillProfile>, skills: map<SkillId, Skill>,
                  skills': map<SkillId, Skill>, n: nat, n': nat)
    requires CardsOk(cards, profiles, skills, n)
    requires profiles.Keys <= profiles'.Keys && skills.Keys <= skills'.Keys && n <= n'
    ensures CardsOk(cards, profiles', skills', n')
  {
  }

  lemma PostsGrow(posts: map<PostId, Post>, users: map<UserId, User>, users': map<UserId, User>,
                  skills: map<SkillId, Skill>, skills': map<SkillId, Skill>, n: nat, n': nat, c: nat, c': nat)
    requires PostsOk(posts, users, skills, n, c)
    requires users.Keys <= users'.Keys && skills.Keys <= skills'.Keys && n <= n' && c <= c'
    ensures PostsOk(posts, users', skills', n', c')
  {
  }

  lemma EndorsementsGrow(es: map<EndorsementId, Endorsement>, users: map<UserId, User>,
                         users': map<UserId, User>, cards: map<CardId, UserSkill>,
                         cards': map<CardId, UserSkill>, n: nat, n': nat, c: nat, c': nat)
    requires EndorsementsOk(es, users, cards, n, c)
    requires users.Keys <= users'.Keys && cards.Keys <= cards'.Keys && n <= n' && c <= c'
    ensures EndorsementsOk(es, users', cards', n', c')
  {
  }

  /* A new row under the next id keeps its table valid when its constraints are met. */

  lemma UsersInsert(users: map<UserId, User>, n: nat, username: string, firstName: string, lastName: string)
    requires UsersOk(users, n) && !UsernameTaken(users, username)
    ensures UsersOk(users[n := User(n, username, firstName, lastName)], n + 1)
  {
    assert forall k :: k in users ==> users[k].username != username;
  }

  lemma SkillsInsert(skills: map<SkillId, Skill>, n: nat, name: string, description: Option<string>)
    requires SkillsOk(skills, n) && !SkillNameTaken(skills, name) && |name| <= SkillNameMaxLength
    ensures SkillsOk(skills[n := Skill(n, name, description)], n + 1)
  {
    assert forall k :: k in skills ==> skills[k].name != name;
  }

  lemma ProfilesPut(profiles: map<UserId, SkillProfile>, users: map<UserId, User>, p: SkillProfile)
    requires ProfilesOk(profiles, users) && p.user in users
    requires OptionalWithin(p.location, LocationMaxLength) && OptionalWithin(p.pictureUrl, PictureUrlMaxLength)
    ensures ProfilesOk(profiles[p.user := p], users)
  {
  }

  lemma CardsInsert(cards: map<CardId, UserSkill>, profiles: map<UserId, SkillProfile>,
                    skills: map<SkillId, Skill>, n: nat, profile: UserId, skill: SkillId,
                    selfRating: int, isPublic: bool)
    requires CardsOk(cards, profiles, skills, n) && profile in profiles && skill in skills
    requires !CardPairTaken(cards, profile, skill) && RatingInRange(selfRating)
    ensures CardsOk(cards[n := UserSkill(n, profile, skill, selfRating, isPublic)], profiles, skills, n + 1)
  {
    assert forall k :: k in cards ==> !(cards[k].profile == profile && cards[k].skill == skill);
  }

  lemma PostsInsert(posts: map<PostId, Post>, users: map<UserId, User>, skills: map<SkillId, Skill>,
                    n: nat, c: nat, author: UserId, content: string, relatedSkill: Option<SkillId>)
    requires PostsOk(posts, users, skills, n, c) && author in users
    requires relatedSkill.Some? ==> relatedSkill.value in skills
    ensures PostsOk(posts[n := Post(n, author, content, relatedSkill, c)], users, skills, n + 1, c + 1)
  {
  }

  lemma EndorsementsInsert(es: map<EndorsementId, Endorsement>, users: map<UserId, User>,
                           cards: map<CardId, UserSkill>, n: nat, c: nat, endorser: UserId, card: CardId,
                           comment: Option<string>, rating: Option<int>)
    requires EndorsementsOk(es, users, cards, n, c) && endorser in users && card in cards
    requires !EndorsementPairTaken(es, endorser, card) && OptionalRatingInRange(rating)
    ensures EndorsementsOk(es[n := Endorsement(n, endorser, card, comment, rating, c)], users, cards, n + 1, c + 1)
  {
    assert forall k :: k in es ==> !(es[k].endorser == endorser && es[k].skillCard == card);
  }

  /** Editing a post keeps its id, author and timestamp. */
  lemma PostsEdit(posts: map<PostId, Post>, users: map<UserId, User>, skills: map<SkillId, Skill>,
                  n: nat, c: nat, p: PostId, content: string, relatedSkill: Option<SkillId>)
    requires PostsOk(posts, users, skills, n, c) && p in posts
    requires relatedSkill.Some? ==> relatedSkill.value in skills
    ensures PostsOk(posts[p := posts[p].(content := content, relatedSkill := relatedSkill)], users, skills, n, c)
  {
  }

  /** Editing an endorsement keeps its id, endorser and timestamp. */
  lemma EndorsementsEdit(es: map<EndorsementId, Endorsement>, users: map<UserId, User>,
                         cards: map<CardId, UserSkill>, n: nat, c: nat, e: EndorsementId, card: CardId,
                         comment: Option<string>, rating: Option<int>)
    requires EndorsementsOk(es, users, cards, n, c) && e in es && card in cards
    requires !EndorsementPairTakenByOther(es, e, es[e].endorser, card) && OptionalRatingInRange(rating)
    ensures EndorsementsOk(es[e := es[e].(skillCard := card, comment := comment, endorserRating := rating)],
                           users, cards, n, c)
  {
    assert forall k :: k in es && k != e ==> !(es[k].endorser == es[e].endorser && es[k].skillCard == card);
  }

  /* Removing rows keeps a table valid as long as nothing left points at what went. */

  lemma UsersWithoutRow(users: map<UserId, User>, n: nat, u: UserId)
    requires UsersOk(users, n)
    ensures UsersOk(users - {u}, n)
  {
  }

  lemma SkillsWithoutRow(skills: map<SkillId, Skill>, n: nat, s: SkillId)
    requires SkillsOk(skills, n)
    ensures SkillsOk(skills - {s}, n)
  {
  }

  lemma ProfilesWithoutRow(profiles: map<UserId, SkillProfile>, users: map<UserId, User>, u: UserId)
    requires ProfilesOk(profiles, users)
    ensures ProfilesOk(profiles - {u}, users)
  {
  }

  lemma ProfilesWithoutUser(profiles: map<UserId, SkillProfile>, users: map<UserId, User>, u: UserId)
    requires ProfilesOk(profiles, users) && u !in profiles
    ensures ProfilesOk(profiles, users - {u})
  {
  }

  lemma CardsWithout(cards: map<CardId, UserSkill>, profiles: map<UserId, SkillProfile>,
                     skills: map<SkillId, Skill>, n: nat, gone: set<CardId>)
    requires CardsOk(cards, profiles, skills, n)
    ensures CardsOk(cards - gone, profiles, skills, n)
  {
  }

  lemma CardsWithoutSkill(cards: map<CardId, UserSkill>, profiles: map<UserId, SkillProfile>,
                          skills: map<SkillId, Skill>, n: nat, s: SkillId)
    requires CardsOk(cards, profiles, skills, n) && forall k :: k in cards ==> cards[k].skill != s
    ensures CardsOk(cards, profiles, skills - {s}, n)
  {
  }

  lemma CardsWithoutProfile(cards: map<CardId, UserSkill>, profiles: map<UserId, SkillProfile>,
                            skills: map<SkillId, Skill>, n: nat, u: UserId)
    requires CardsOk(cards, profiles, skills, n) && forall k :: k in cards ==> cards[k].profile != u
    ensures CardsOk(cards, profiles - {u}, skills, n)
  {
  }

  lemma PostsWithoutRow(posts: map<PostId, Post>, users: map<UserId, User>, skills: map<SkillId, Skill>,
                        n: nat, c: nat, p: PostId)
    requires PostsOk(posts, users, skills, n, c)
    ensures PostsOk(posts - {p}, users, skills, n, c)
  {
  }

  lemma PostsUnlinkSkill(posts: map<PostId, Post>, users: map<UserId, User>, skills: map<SkillId, Skill>,
                         n: nat, c: nat, s: SkillId)
    requires PostsOk(posts, users, skills, n, c)
    ensures PostsOk(PostsUnlinked(posts, s), users, skills - {s}, n, c)
  {
  }

  lemma PostsWithoutAuthor(posts: map<PostId, Post>, users: map<UserId, User>, skills: map<SkillId, Skill>,
                           n: nat, c: nat, u: UserId)
    requires PostsOk(posts, users, skills, n, c)
    ensures PostsOk(PostsNotBy(posts, u), users - {u}, skills, n, c)
  {
  }

  lemma EndorsementsWithoutRow(es: map<EndorsementId, Endorsement>, users: map<UserId, User>,
                               cards: map<CardId, UserSkill>, n: nat, c: nat, e: EndorsementId)
    requires EndorsementsOk(es, users, cards, n, c)
    ensures EndorsementsOk(es - {e}, users, cards, n, c)
  {
  }

  lemma EndorsementsWithoutCards(es: map<EndorsementId, Endorsement>, users: map<UserId, User>,
                                 cards: map<CardId, UserSkill>, n: nat, c: nat, gone: set<CardId>)
    requires EndorsementsOk(es, users, cards, n, c)
    ensures EndorsementsOk(EndorsementsNotOn(es, gone), users, cards - gone, n, c)
  {
  }

  lemma EndorsementsWithoutEndorser(es: map<EndorsementId, Endorsement>, users: map<UserId, User>,
                                    cards: map<CardId, UserSkill>, n: nat, c: nat, u: UserId)
    requires EndorsementsOk(es, users, cards, n, c)
    ensures EndorsementsOk(EndorsementsNotBy(es, u), users - {u}, cards, n, c)
  {
  }

  lemma WithUserKeepsSchema(db: Db, username: string, firstName: string, lastName: string)
    requires Schema(db) && !UsernameTaken(db.users, username)
    ensures Schema(WithUser(db, username, firstName, lastName))
  {
    var n := db.nextId;
    var users' := db.users[n := User(n, username, firstName, lastName)];
    UsersInsert(db.users, n, username, firstName, lastName);
    SkillsGrow(db.skills, n, n + 1);
    ProfilesGrow(db.profiles, db.users, users');
    CardsGrow(db.cards, db.profiles, db.profiles, db.skills, db.skills, n, n + 1);
    PostsGrow(db.posts, db.users, users', db.skills, db.skills, n, n + 1, db.clock, db.clock);
    EndorsementsGrow(db.endorsements, db.users, users', db.cards, db.cards, n, n + 1, db.clock, db.clock);
  }

  lemma WithSkillKeepsSchema(db: Db, name: string, description: Option<string>)
    requires Schema(db) && !SkillNameTaken(db.skills, name) && |name| <= SkillNameMaxLength
    ensures Schema(WithSkill(db, name, description))
  {
    var n := db.nextId;
    var skills' := db.skills[n := Skill(n, name, description)];
    UsersGrow(db.users, n, n + 1);
    SkillsInsert(db.skills, n, name, description);
    CardsGrow(db.cards, db.profiles, db.profiles, db.skills, skills', n, n + 1);
    PostsGrow(db.posts, db.users, db.users, db.skills, skills', n, n + 1, db.clock, db.clock);
    EndorsementsGrow(db.endorsements, db.users, db.users, db.cards, db.cards, n, n + 1, db.clock, db.clock);
  }

  lemma WithProfileKeepsSchema(db: Db, u: UserId)
    requires Schema(db) && u in db.users
    ensures Schema(WithProfile(db, u))
  {
    ProfilesPut(db.profiles, db.users, BlankProfile(u));
    CardsGrow(db.cards, db.profiles, db.profiles[u := BlankProfile(u)], db.skills, db.skills, db.nextId, db.nextId);
  }

  lemma WithCardKeepsSchema(db: Db, profile: UserId, skill: SkillId, selfRating: int, isPublic: bool)
    requires Schema(db) && profile in db.profiles && skill in db.skills
    requires !CardPairTaken(db.cards, profile, skill) && RatingInRange(selfRating)
    ensures Schema(WithCard(db, profile, skill, selfRating, isPublic))
  {
    var n := db.nextId;
    var cards' := db.cards[n := UserSkill(n, profile, skill, selfRating, isPublic)];
    UsersGrow(db.users, n, n + 1);
    SkillsGrow(db.skills, n, n + 1);
    CardsInsert(db.cards, db.profiles, db.skills, n, profile, skill, selfRating, isPublic);
    PostsGrow(db.posts, db.users, db.users, db.skills, db.skills, n, n + 1, db.clock, db.clock);
    EndorsementsGrow(db.endorsements, db.users, db.users, db.cards, cards', n, n + 1, db.clock, db.clock);
  }

  lemma WithPostKeepsSchema(db: Db, author: UserId, content: string, relatedSkill: Option<SkillId>)
    requires Schema(db) && author in db.users
    requires relatedSkill.Some? ==> relatedSkill.value in db.skills
    ensures Schema(WithPost(db, author, content, relatedSkill))
  {
    var n := db.nextId;
    UsersGrow(db.users, n, n + 1);
    SkillsGrow(db.skills, n, n + 1);
    CardsGrow(db.cards, db.profiles, db.profiles, db.skills, db.skills, n, n + 1);
    PostsInsert(db.posts, db.users, db.skills, n, db.clock, author, content, relatedSkill);
    EndorsementsGrow(db.endorsements, db.users, db.users, db.cards, db.cards, n, n + 1, db.clock, db.clock + 1);
  }

  lemma WithEndorsementKeepsSchema(db: Db, endorser: UserId, card: CardId, comment: Option<string>,
                                   rating: Option<int>)
    requires Schema(db) && endorser in db.users && card in db.cards
    requires !EndorsementPairTaken(db.endorsements, endorser, card) && OptionalRatingInRange(rating)
    ensures Schema(WithEndorsement(db, endorser, card, comment, rating))
  {
    var n := db.nextId;
    UsersGrow(db.users, n, n + 1);
    SkillsGrow(db.skills, n, n + 1);
    CardsGrow(db.cards, db.profiles, db.profiles, db.skills, db.skills, n, n + 1);
    PostsGrow(db.posts, db.users, db.users, db.skills, db.skills, n, n + 1, db.clock, db.clock + 1);
    EndorsementsInsert(db.endorsements, db.users, db.cards, n, db.clock, endorser, card, comment, rating);
  }

  // ---------------------------------------------------------------- in-place edits

  function WithPostEdited(db: Db, p: PostId, content: string, relatedSkill: Option<SkillId>): Db
    requires p in db.posts
  {
    db.(posts := db.posts[p := db.posts[p].(content := content, relatedSkill := relatedSkill)])
  }

  function WithProfileEdited(db: Db, u: UserId, bio: Option<string>, location: Option<string>,
                             pictureUrl: Option<string>): Db
    requires u in db.profiles
  {
    db.(profiles := db.profiles[u := SkillProfile(u, bio, location, pictureUrl)])
  }

  function WithEndorsementEdited(db: Db, e: EndorsementId, card: CardId, comment: Option<string>,
                                 rating: Option<int>): Db
    requires e in db.endorsements
  {
    db.(endorsements := db.endorsements[e := db.endorsements[e].(skillCard := card, comment := comment,
                                                                  endorserRating := rating)])
  }

  lemma WithEndorsementEditedKeepsSchema(db: Db, e: EndorsementId, card: CardId, comment: Option<string>,
                                         rating: Option<int>)
    requires Schema(db) && e in db.endorsements && card in db.cards && OptionalRatingInRange(rating)
    requires !EndorsementPairTakenByOther(db.endorsements, e, db.endorsements[e].endorser, card)
    ensures Schema(WithEndorsementEdited(db, e, card, comment, rating))
  {
    EndorsementsEdit(db.endorsements, db.users, db.cards, db.nextId, db.clock, e, card, comment, rating);
  }

  lemma WithPostEditedKeepsSchema(db: Db, p: PostId, content: string, relatedSkill: Option<SkillId>)
    requires Schema(db) && p in db.posts
    requires relatedSkill.Some? ==> relatedSkill.value in db.skills
    ensures Schema(WithPostEdited(db, p, content, relatedSkill))
  {
    PostsEdit(db.posts, db.users, db.skills, db.nextId, db.clock, p, content, relatedSkill);
  }

  lemma WithProfileEditedKeepsSchema(db: Db, u: UserId, bio: Option<string>, location: Option<string>,
                                     pictureUrl: Option<string>)
    requires Schema(db) && u in db.profiles
    requires OptionalWithin(location, LocationMaxLength) && OptionalWithin(pictureUrl, PictureUrlMaxLength)
    ensures Schema(WithProfileEdited(db, u, bio, location, pictureUrl))
  {
    var p := SkillProfile(u, bio, location, pictureUrl);
    ProfilesPut(db.profiles, db.users, p);
    CardsGrow(db.cards, db.profiles, db.profiles[u := p], db.skills, db.skills, db.nextId, db.nextId);
  }

  // ---------------------------------------------------------------- deletes

  function CardsOfSkill(db: Db, s: SkillId): set<CardId> {
    set c | c in db.cards && db.cards[c].skill == s
  }

  function CardsOfProfile(db: Db, u: UserId): set<CardId> {
    set c | c in db.cards && db.cards[c].profile == u
  }

  /** Removes the given cards and, by CASCADE on skill_card, the endorsements on them. */
  function WithoutCards(db: Db, gone: set<CardId>): Db {
    db.(cards := db.cards - gone,
        endorsements := EndorsementsNotOn(db.endorsements, gone))
  }

  /** SET_NULL on related_skill: a post loses its link to a deleted skill and nothing else. */
  function WithoutSkillLink(p: Post, s: SkillId): Post {
    if p.relatedSkill == Some(s) then p.(relatedSkill := None) else p
  }

  function PostsUnlinked(posts: map<PostId, Post>, s: SkillId): map<PostId, Post> {
    map p | p in posts :: WithoutSkillLink(posts[p], s)
  }

  function PostsNotBy(posts: map<PostId, Post>, u: UserId): map<PostId, Post> {
    map p | p in posts && posts[p].author != u :: posts[p]
  }

  function EndorsementsNotOn(es: map<EndorsementId, Endorsement>, gone: set<CardId>): map<EndorsementId, Endorsement> {
    map e | e in es && es[e].skillCard !in gone :: es[e]
  }

  function EndorsementsNotBy(es: map<EndorsementId, Endorsement>, u: UserId): map<EndorsementId, Endorsement> {
    map e | e in es && es[e].endorser != u :: es[e]
  }

  function AfterDeleteEndorsement(db: Db, e: EndorsementId): Db {
    db.(endorsements := db.endorsements - {e})
  }

  function AfterDeletePost(db: Db, p: PostId): Db {
    db.(posts := db.posts - {p})
  }

  function AfterDeleteCard(db: Db, c: CardId): Db {
    WithoutCards(db, {c})
  }

  /** Cards on the skill go (CASCADE, taking their endorsements); posts only drop the link (SET_NULL). */
  function AfterDeleteSkill(db: Db, s: SkillId): Db {
    WithoutSkillRow(WithoutCards(db, CardsOfSkill(db, s)), s)
  }

  /** The skill row itself goes; posts that pointed at it keep existing, unlinked. */
  function WithoutSkillRow(db: Db, s: SkillId): Db {
    db.(skills := db.skills - {s}, posts := PostsUnlinked(db.posts, s))
  }

  /** The profile's cards go (CASCADE), and with them the endorsements on those cards. */
  function AfterDeleteProfile(db: Db, u: UserId): Db {
    var d := WithoutCards(db, CardsOfProfile(db, u));
    d.(profiles := d.profiles - {u})
  }

  /** CASCADE from the user: its profile (and so its cards), its posts, the endorsements it gave. */
  function AfterDeleteUser(db: Db, u: UserId): Db {
    WithoutUserRows(AfterDeleteProfile(db, u), u)
  }

  /** The user row goes together with the posts it wrote and the endorsements it gave. */
  function WithoutUserRows(db: Db, u: UserId): Db {
    db.(users := db.users - {u},
        posts := PostsNotBy(db.posts, u),
        endorsements := EndorsementsNotBy(db.endorsements, u))
  }

  lemma WithoutCardsKeepsSchema(db: Db, gone: set<CardId>)
    requires Schema(db)
    ensures Schema(WithoutCards(db, gone))
  {
    CardsWithout(db.cards, db.profiles, db.skills, db.nextId, gone);
    EndorsementsWithoutCards(db.endorsements, db.users, db.cards, db.nextId, db.clock, gone);
  }

  lemma AfterDeleteEndorsementKeepsSchema(db: Db, e: EndorsementId)
    requires Schema(db)
    ensures Schema(AfterDeleteEndorsement(db, e))
  {
    EndorsementsWithoutRow(db.endorsements, db.users, db.cards, db.nextId, db.clock, e);
  }

  lemma AfterDeletePostKeepsSchema(db: Db, p: PostId)
    requires Schema(db)
    ensures Schema(AfterDeletePost(db, p))
  {
    PostsWithoutRow(db.posts, db.users, db.skills, db.nextId, db.clock, p);
  }

  lemma AfterDeleteCardKeepsSchema(db: Db, c: CardId)
    requires Schema(db)
    ensures Schema(AfterDeleteCard(db, c))
  {
    WithoutCardsKeepsSchema(db, {c});
  }

  lemma WithoutSkillRowKeepsSchema(db: Db, s: SkillId)
    requires Schema(db) && forall k :: k in db.cards ==> db.cards[k].skill != s
    ensures Schema(WithoutSkillRow(db, s))
  {
    SkillsWithoutRow(db.skills, db.nextId, s);
    CardsWithoutSkill(db.cards, db.profiles, db.skills, db.nextId, s);
    PostsUnlinkSkill(db.posts, db.users, db.skills, db.nextId, db.clock, s);
  }

  lemma AfterDeleteSkillKeepsSchema(db: Db, s: SkillId)
    requires Schema(db)
    ensures Schema(AfterDeleteSkill(db, s))
  {
    WithoutCardsKeepsSchema(db, CardsOfSkill(db, s));
    WithoutSkillRowKeepsSchema(WithoutCards(db, CardsOfSkill(db, s)), s);
  }

  lemma AfterDeleteProfileKeepsSchema(db: Db, u: UserId)
    requires Schema(db)
    ensures Schema(AfterDeleteProfile(db, u))
  {
    var w := WithoutCards(db, CardsOfProfile(db, u));
    WithoutCardsKeepsSchema(db, CardsOfProfile(db, u));
    ProfilesWithoutRow(w.profiles, w.users, u);
    CardsWithoutProfile(w.cards, w.profiles, w.skills, w.nextId, u);
  }

  lemma WithoutUserRowsKeepsSchema(db: Db, u: UserId)
    requires Schema(db) && u !in db.profiles
    ensures Schema(WithoutUserRows(db, u))
  {
    UsersWithoutRow(db.users, db.nextId, u);
    ProfilesWithoutUser(db.profiles, db.users, u);
    PostsWithoutAuthor(db.posts, db.users, db.skills, db.nextId, db.clock, u);
    EndorsementsWithoutEndorser(db.endorsements, db.users, db.cards, db.nextId, db.clock, u);
  }

  lemma AfterDeleteUserKeepsSchema(db: Db, u: UserId)
    requires Schema(db)
    ensures Schema(AfterDeleteUser(db, u))
  {
    AfterDeleteProfileKeepsSchema(db, u);
    WithoutUserRowsKeepsSchema(AfterDeleteProfile(db, u), u);
  }

  lemma UserDeletionCascades(db: Db, u: UserId)
    requires Schema(db)
    ensures var d := AfterDeleteUser(db, u);
      && u !in d.users && u !in d.profiles
      && (forall k :: k in d.cards ==> d.cards[k].profile != u)
      && (forall k :: k in d.posts ==> d.posts[k].author != u)
      && (forall k :: k in d.endorsements ==> d.endorsements[k].endorser != u &&
                                              db.cards[d.endorsements[k].skillCard].profile != u)
  {
  }

  /** What survives a user's deletion: every row that neither is nor hangs off the user. */
  lemma UserDeletionKeepsOthers(db: Db, u: UserId)
    requires Schema(db)
    ensures var d := AfterDeleteUser(db, u);
      && d.users == db.users - {u} && d.profiles == db.profiles - {u} && d.skills == db.skills
      && (forall k :: k in db.cards ==> (k in d.cards <==> db.cards[k].profile != u))
      && (forall k :: k in db.posts ==> (k in d.posts <==> db.posts[k].author != u))
      && SubMap(d.cards, db.cards) && SubMap(d.posts, db.posts)
  {
  }

  /** An endorsement survives a user's deletion unless the user gave it or holds the card. */
  lemma UserDeletionKeepsOtherEndorsements(db: Db, u: UserId)
    requires Schema(db)
    ensures var d := AfterDeleteUser(db, u);
      && (forall k :: k in db.endorsements ==>
            (k in d.endorsements <==> db.endorsements[k].endorser != u &&
                                      db.cards[db.endorsements[k].skillCard].profile != u))
      && SubMap(d.endorsements, db.endorsements)
  {
  }

  /** Deleting a skill: its cards and their endorsements go, posts only lose the link. */
  lemma SkillDeletionEffects(db: Db, s: SkillId)
    requires Schema(db)
    ensures var d := AfterDeleteSkill(db, s);
      && d.skills == db.skills - {s} && d.users == db.users && d.profiles == db.profiles
      && d.posts.Keys == db.posts.Keys
      && (forall k :: k in db.posts ==>
            d.posts[k] == if db.posts[k].relatedSkill == Some(s) then db.posts[k].(relatedSkill := None)
                          else db.posts[k])
      && (forall k :: k in db.cards ==> (k in d.cards <==> db.cards[k].skill != s))
      && (forall k :: k in db.endorsements ==>
            (k in d.endorsements <==> db.cards[db.endorsements[k].skillCard].skill != s))
  {
  }
}
