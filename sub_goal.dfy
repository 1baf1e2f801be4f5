/**
 * A checklist item and its `Codable` conformance. The coding keys are
 * `text`, `isCompleted` and `createdAt`: the `id` is never written, and
 * decoding gives every item a freshly generated id.
 */
module SubGoalModel {
  import opened Wrappers
  import opened Store

  /** Stands for a `UUID`; the caller supplies fresh ones. */
  type Id = nat

  datatype SubGoal = SubGoal(id: Id, text: string, isCompleted: bool, createdAt: int)

  /** `SubGoal(text:)`: not completed, created now, with a fresh id. */
  function NewSubGoal(id: Id, text: string, now: int): SubGoal {
    SubGoal(id, text, false, now)
  }

  const TextKey: string := "text"
  const IsCompletedKey: string := "isCompleted"
  const CreatedAtKey: string := "createdAt"

  /** The `CodingKeys`. */
  const CodingKeys: set<string> := {TextKey, IsCompletedKey, CreatedAtKey}

  /** Everything but the id agrees. */
  predicate SameContent(g: SubGoal, h: SubGoal) {
    g.text == h.text && g.isCompleted == h.isCompleted && g.createdAt == h.createdAt
  }

  /** `encode(to:)`. */
  function Encode(g: SubGoal): Json {
    JObject(map[TextKey := JString(g.text), IsCompletedKey := JBool(g.isCompleted), CreatedAtKey := JDate(g.createdAt)])
  }

  /** `init(from:)`: each of the three keys must be present with the right type; `id` is the fresh one. */
  function Decode(j: Json, id: Id): Option<SubGoal> {
    if j.JObject?
       && TextKey in j.fields && j.fields[TextKey].JString?
       && IsCompletedKey in j.fields && j.fields[IsCompletedKey].JBool?
       && CreatedAtKey in j.fields && j.fields[CreatedAtKey].JDate?
    then Some(SubGoal(id, j.fields[TextKey].s, j.fields[IsCompletedKey].b, j.fields[CreatedAtKey].seconds))
    else None
  }

  /** The part of a document that the coding keys select. */
  function CodedPart(j: Json): Json
    requires j.JObject?
  {
    JObject(map k | k in j.fields && k in CodingKeys :: j.fields[k])
  }

  /** Decoding an encoded item restores everything but the id, which is the fresh one. */
  lemma DecodeEncode(g: SubGoal, id: Id)
    ensures Decode(Encode(g), id) == Some(g.(id := id))
  {
  }

  /** Two items encode alike exactly when they agree on everything but the id: the id is never written. */
  lemma EncodeIgnoresId(g: SubGoal, h: SubGoal)
    ensures Encode(g) == Encode(h) <==> SameContent(g, h)
  {
    if Encode(g) == Encode(h) {
      assert Encode(g).fields[TextKey] == Encode(h).fields[TextKey];
      assert Encode(g).fields[IsCompletedKey] == Encode(h).fields[IsCompletedKey];
      assert Encode(g).fields[CreatedAtKey] == Encode(h).fields[CreatedAtKey];
    }
  }

  /**
   * A document decodes only if it is an object carrying all three coding
   * keys with the right types; re-encoding the result gives back exactly
   * that coded part (other keys are ignored).
   */
  lemma EncodeDecode(j: Json, id: Id, g: SubGoal)
    requires Decode(j, id) == Some(g)
    ensures g.id == id && j.JObject? && CodingKeys <= j.fields.Keys
    ensures Encode(g) == CodedPart(j)
  {
    var e := Encode(g).fields;
    var c := CodedPart(j).fields;
    assert e.Keys == CodingKeys == c.Keys;
    assert forall k :: k in e ==> e[k] == c[k];
  }

  // ---------------------------------------------------------------------------
  // Lists, as `[SubGoal]` is encoded and decoded

  function EncodeList(gs: seq<SubGoal>): Json {
    JArray(seq(|gs|, i requires 0 <= i < |gs| => Encode(gs[i])))
  }

  /** Decodes every element, item `i` getting id `firstId + i`; one bad element fails the whole list. */
  function DecodeItems(items: seq<Json>, firstId: Id): Option<seq<SubGoal>>
    decreases |items|
  {
    if items == [] then Some([])
    else
      match Decode(items[0], firstId)
      case None => None
      case Some(g) =>
        match DecodeItems(items[1..], firstId + 1)
        case None => None
        case Some(rest) => Some([g] + rest)
  }

  /** `JSONDecoder().decode([SubGoal].self, from:)`: the document must be an array. */
  function DecodeList(j: Json, firstId: Id): Option<seq<SubGoal>> {
    if j.JArray? then DecodeItems(j.items, firstId) else None
  }

  /** The same items with fresh ids `firstId`, `firstId + 1`, ... */
  function Renumbered(gs: seq<SubGoal>, firstId: Id): (r: seq<SubGoal>)
    ensures |r| == |gs|
  {
    seq(|gs|, i requires 0 <= i < |gs| => gs[i].(id := firstId + i))
  }

  /** A list decodes exactly when every element does; the result keeps the order. */
  lemma {:induction false} DecodeItemsAllOrNothing(items: seq<Json>, firstId: Id)
    ensures DecodeItems(items, firstId).Some? <==> forall i :: 0 <= i < |items| ==> Decode(items[i], firstId + i).Some?
    ensures DecodeItems(items, firstId).Some? ==>
      |DecodeItems(items, firstId).value| == |items|
      && forall i :: 0 <= i < |items| ==> Some(DecodeItems(items, firstId).value[i]) == Decode(items[i], firstId + i)
    decreases |items|
  {
    if items != [] {
      DecodeItemsAllOrNothing(items[1..], firstId + 1);
      assert forall i :: 1 <= i < |items| ==> items[i] == items[1..][i - 1];
    }
  }

  /** Saving then loading a list restores every item's content, in order, with fresh ids. */
  lemma DecodeListEncodeList(gs: seq<SubGoal>, firstId: Id)
    ensures DecodeList(EncodeList(gs), firstId) == Some(Renumbered(gs, firstId))
  {
    var items := EncodeList(gs).items;
    forall i | 0 <= i < |items|
      ensures Decode(items[i], firstId + i) == Some(gs[i].(id := firstId + i))
    {
      DecodeEncode(gs[i], firstId + i);
    }
    DecodeItemsAllOrNothing(items, firstId);
    var r := DecodeList(EncodeList(gs), firstId).value;
    assert r == Renumbered(gs, firstId);
  }
}
