/** The relationship reducer (src/services/relationshipService.ts): every
    operation returns a new player with one list or the partner replaced.
    Fresh person ids come from generateId and are parameters here. */
module RelationshipService {
  import opened Types
  import opened Seqs

  function NewPerson(draft: PersonDraft, id: string, kind: PersonType): (p: Person)
    ensures p.id == id && p.kind == kind && p.name == draft.name
    ensures p.relationship == draft.relationship && p.traits == draft.traits
  {
    Person(id, draft.name, kind, draft.relationship, draft.traits)
  }

  /** addFriend: one friend, typed FRIEND, appended at the end. */
  function AddFriend(player: Player, friend: PersonDraft, id: string): (r: Player)
    ensures r.friends == player.friends + [NewPerson(friend, id, Friend)]
    ensures r.friends[|r.friends| - 1].kind == Friend
    ensures r == player.(friends := r.friends)
  {
    player.(friends := player.friends + [NewPerson(friend, id, Friend)])
  }

  /** removeFriend: every friend with that id is dropped, the rest keep their order. */
  function RemoveFriend(player: Player, friendId: string): (r: Player)
    ensures forall f :: f in r.friends <==> f in player.friends && f.id != friendId
    ensures forall f :: multiset(r.friends)[f] == if f.id != friendId then multiset(player.friends)[f] else 0
    ensures IsSubsequence(r.friends, player.friends)
    ensures r == player.(friends := r.friends)
  {
    FilterIsSubsequence(player.friends, (f: Person) => f.id != friendId);
    FilterMultiplicity(player.friends, (f: Person) => f.id != friendId);
    player.(friends := Filter(player.friends, (f: Person) => f.id != friendId))
  }

  lemma RemoveAbsentFriendIsNoOp(player: Player, friendId: string)
    requires forall i :: 0 <= i < |player.friends| ==> player.friends[i].id != friendId
    ensures RemoveFriend(player, friendId) == player
  {
  }

  /** addPartner: sets a PARTNER and DATING, replacing any previous partner. */
  function AddPartner(player: Player, partner: PersonDraft, id: string): (r: Player)
    ensures r.partner == Some(NewPerson(partner, id, Partner))
    ensures r.maritalStatus == Dating
    ensures r == player.(partner := r.partner, maritalStatus := r.maritalStatus)
  {
    player.(partner := Some(NewPerson(partner, id, Partner)), maritalStatus := Dating)
  }

  /** marry: identity without a partner, else MARRIED with the same partner. */
  function Marry(player: Player): (r: Player)
    ensures player.partner.None? ==> r == player
    ensures player.partner.Some? ==> r == player.(maritalStatus := Married)
  {
    if player.partner.None? then player else player.(maritalStatus := Married)
  }

  /** divorce: unconditionally no partner and DIVORCED. */
  function Divorce(player: Player): (r: Player)
    ensures r.partner.None? && r.maritalStatus == Divorced
    ensures r == player.(partner := None, maritalStatus := Divorced)
  {
    player.(partner := None, maritalStatus := Divorced)
  }

  /** addChild: one CHILD appended to the children. */
  function AddChild(player: Player, child: PersonDraft, id: string): (r: Player)
    ensures r.children == player.children + [NewPerson(child, id, Child)]
    ensures r == player.(children := r.children)
  {
    player.(children := player.children + [NewPerson(child, id, Child)])
  }

  /** addParent: one PARENT appended to the parents. */
  function AddParent(player: Player, parent: PersonDraft, id: string): (r: Player)
    ensures r.parents == player.parents + [NewPerson(parent, id, Parent)]
    ensures r == player.(parents := r.parents)
  {
    player.(parents := player.parents + [NewPerson(parent, id, Parent)])
  }

  /** Removing a friend just added with a fresh id gives the old list back. */
  lemma {:induction false} AddThenRemoveFriend(player: Player, friend: PersonDraft, id: string)
    requires forall i :: 0 <= i < |player.friends| ==> player.friends[i].id != id
    ensures RemoveFriend(AddFriend(player, friend, id), id) == player
  {
    var keep := (f: Person) => f.id != id;
    FilterAppend(player.friends, [NewPerson(friend, id, Friend)], keep);
    assert Filter([NewPerson(friend, id, Friend)], keep) == [];
  }

  /** getDefaultRelationship: a label for each of the six person types. */
  function GetDefaultRelationship(kind: PersonType): (relation: string)
    ensures relation != "" && relation != "未知"
  {
    match kind
    case Parent => "父母"
    case Sibling => "兄弟姐妹"
    case Friend => "朋友"
    case Partner => "伴侣"
    case Child => "子女"
    case Colleague => "同事"
  }

  lemma DefaultRelationshipsDistinct(a: PersonType, b: PersonType)
    requires a != b
    ensures GetDefaultRelationship(a) != GetDefaultRelationship(b)
  {
  }
}
