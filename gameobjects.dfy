/** GameObject identities: every object created through GameObject::CreateGameObject takes
    the next value of one function-local static counter of type unsigned int. */
module GameObjects {
  import opened Vulkan

  /** GameObject::id_t. */
  type Id = u32

  /** A game object as far as its identity goes (mesh, colour and transform are not part of
      this model). */
  datatype GameObject = GameObject(id: Id)

  /** The id the n-th call (counting from 0) of CreateGameObject hands out: the counter starts
      at 0 and its post-increment wraps modulo 2^32. */
  function IssuedId(n: nat): (r: Id)
    ensures n < U32Modulus ==> r == n
  {
    n % U32Modulus
  }

  /** The ids of the first n calls, in call order. */
  function IssuedIds(n: nat): (r: seq<Id>)
    ensures |r| == n
  {
    seq(n, (i: nat) => IssuedId(i))
  }

  predicate DistinctIds(ids: seq<Id>) {
    forall i, j :: 0 <= i < j < |ids| ==> ids[i] != ids[j]
  }

  /** Up to 2^32 objects get pairwise different ids, starting from 0 and counting up by one. */
  lemma IdsDistinctBeforeWrap(n: nat)
    requires n <= U32Modulus
    ensures DistinctIds(IssuedIds(n))
    ensures forall i :: 0 <= i < n ==> IssuedIds(n)[i] == i
  {
  }

  /** The counter wraps silently: object number 2^32 gets the id of the very first object,
      and from then on every id repeats with period 2^32. */
  lemma IdsRepeatAfterWrap(n: nat, i: nat)
    requires i + U32Modulus < n
    ensures IssuedIds(n)[i + U32Modulus] == IssuedIds(n)[i]
    ensures !DistinctIds(IssuedIds(n))
  {
    var ids := IssuedIds(n);
    assert ids[i] == i % U32Modulus;
    assert ids[i + U32Modulus] == (i + U32Modulus) % U32Modulus;
    assert ids[0] == ids[U32Modulus];
  }

  /** `static id_t CurrentId` inside CreateGameObject, with the ids handed out so far. */
  class IdCounter {
    var currentId: Id
    ghost var issued: seq<Id>

    /** The counter and the ids are those of |issued| calls. */
    ghost predicate Valid()
      reads this
    {
      issued == IssuedIds(|issued|) && currentId == IssuedId(|issued|)
    }

    /** Static initialisation: CurrentId = 0. */
    constructor ()
      ensures Valid() && issued == [] && currentId == 0
    {
      currentId := 0;
      issued := [];
    }

    /** GameObject::CreateGameObject: `GameObject(CurrentId++)`. */
    method CreateGameObject() returns (o: GameObject)
      requires Valid()
      modifies this
      ensures Valid() && issued == old(issued) + [o.id]
      ensures o.id == IssuedId(|old(issued)|) && o.id == old(currentId)
      ensures currentId == (old(currentId) + 1) % U32Modulus
    {
      o := GameObject(currentId);
      currentId := (currentId + 1) % U32Modulus;
      issued := issued + [o.id];
      assert issued == IssuedIds(|issued|);
    }
  }
}
