/** The sticker store of the editor: an ordered list of placed stickers, the
    flag that opens the sticker panel and the id of the selected sticker.
    The list is replaced wholesale by each callback; the filter, map and
    append steps that compute the new list are pure functions here. */
module Stickers {
  import opened Types

  /** A fresh sticker at the fixed default placement. The id is the
      caller's: the editor derives it from the clock, which is outside this
      model. */
  function NewSticker(id: string, emoji: string): (r: StickerData)
    ensures r.id == id && r.emoji == emoji
    ensures r.x == 150.0 && r.y == 150.0 && r.scale == 1.0 && r.rotation == 0.0
  {
    StickerData(id, emoji, 150.0, 150.0, 1.0, 0.0)
  }

  /** No sticker of `ss` has the given id. */
  predicate NoneWithId(ss: seq<StickerData>, id: string) {
    forall i :: 0 <= i < |ss| ==> ss[i].id != id
  }

  /** `prev.filter(s => s.id !== id)`. */
  function RemoveById(ss: seq<StickerData>, id: string): (r: seq<StickerData>)
    ensures |r| <= |ss|
    ensures NoneWithId(r, id)
    ensures forall s :: s in r <==> s in ss && s.id != id
    ensures NoneWithId(ss, id) ==> r == ss
  {
    if ss == [] then []
    else if ss[0].id == id then RemoveById(ss[1..], id)
    else [ss[0]] + RemoveById(ss[1..], id)
  }

  /** Filtering commutes with concatenation: the survivors of `a + b` are the
      survivors of `a` followed by the survivors of `b`. With the one-element
      case this pins down the order of the survivors completely. */
  lemma {:induction false} RemoveByIdAppend(a: seq<StickerData>, b: seq<StickerData>, id: string)
    ensures RemoveById(a + b, id) == RemoveById(a, id) + RemoveById(b, id)
  {
    if a == [] {
      assert a + b == b;
    } else {
      assert (a + b)[0] == a[0];
      assert (a + b)[1..] == a[1..] + b;
      RemoveByIdAppend(a[1..], b, id);
    }
  }

  /** Removing twice is removing once. */
  lemma RemoveByIdIdempotent(ss: seq<StickerData>, id: string)
    ensures RemoveById(RemoveById(ss, id), id) == RemoveById(ss, id)
  {
  }

  /** `{ ...s, ...updates }`: a field present in the patch wins, an absent
      one keeps the sticker's value. */
  function MergeSticker(s: StickerData, u: StickerPatch): (r: StickerData)
    ensures u.id.Some? ==> r.id == u.id.value
    ensures u.id.None? ==> r.id == s.id
    ensures u.emoji.Some? ==> r.emoji == u.emoji.value
    ensures u.emoji.None? ==> r.emoji == s.emoji
    ensures u.x.Some? ==> r.x == u.x.value
    ensures u.x.None? ==> r.x == s.x
    ensures u.y.Some? ==> r.y == u.y.value
    ensures u.y.None? ==> r.y == s.y
    ensures u.scale.Some? ==> r.scale == u.scale.value
    ensures u.scale.None? ==> r.scale == s.scale
    ensures u.rotation.Some? ==> r.rotation == u.rotation.value
    ensures u.rotation.None? ==> r.rotation == s.rotation
  {
    StickerData(
      u.id.GetOr(s.id),
      u.emoji.GetOr(s.emoji),
      u.x.GetOr(s.x),
      u.y.GetOr(s.y),
      u.scale.GetOr(s.scale),
      u.rotation.GetOr(s.rotation))
  }

  /** `prev.map(s => s.id === id ? { ...s, ...updates } : s)`: same length,
      same order, matching stickers merged with the patch, all others
      untouched. */
  function UpdateById(ss: seq<StickerData>, id: string, u: StickerPatch): (r: seq<StickerData>)
    ensures |r| == |ss|
    ensures forall i :: 0 <= i < |ss| && ss[i].id == id ==> r[i] == MergeSticker(ss[i], u)
    ensures forall i :: 0 <= i < |ss| && ss[i].id != id ==> r[i] == ss[i]
    ensures NoneWithId(ss, id) ==> r == ss
  {
    if ss == [] then []
    else [if ss[0].id == id then MergeSticker(ss[0], u) else ss[0]] + UpdateById(ss[1..], id, u)
  }

  /** Updating twice with any patch is updating once. A patch that keeps the
      id merges the same fields again; a patch that renames the matching
      stickers leaves none with the id, so the second update is a no-op. */
  lemma UpdateByIdIdempotent(ss: seq<StickerData>, id: string, u: StickerPatch)
    ensures UpdateById(UpdateById(ss, id, u), id, u) == UpdateById(ss, id, u)
  {
    var once := UpdateById(ss, id, u);
    var twice := UpdateById(once, id, u);
    if u.id.None? || u.id.value == id {
      forall i | 0 <= i < |ss| ensures twice[i] == once[i] {
        if ss[i].id == id {
          assert once[i].id == id;
        }
      }
    } else {
      assert NoneWithId(once, id);
    }
  }

  /** Adding a sticker under an id that no sticker has and then removing
      that id gives back the list as it was. */
  lemma AddThenRemove(ss: seq<StickerData>, id: string, emoji: string)
    requires NoneWithId(ss, id)
    ensures RemoveById(ss + [NewSticker(id, emoji)], id) == ss
  {
    RemoveByIdAppend(ss, [NewSticker(id, emoji)], id);
    assert RemoveById([NewSticker(id, emoji)], id) == [];
  }

  /** The hook's state: three slots that its callbacks reassign. */
  class StickerStore {
    var stickers: seq<StickerData>
    var showStickerPanel: bool
    var selectedSticker: Option<string>

    /** No stickers, panel closed, nothing selected. */
    constructor ()
      ensures stickers == [] && !showStickerPanel && selectedSticker == None
    {
      stickers := [];
      showStickerPanel := false;
      selectedSticker := None;
    }

    /** Appends one sticker at the default placement and closes the panel;
        the earlier stickers and the selection are unchanged. */
    method AddSticker(emoji: string, id: string)
      modifies this
      ensures stickers == old(stickers) + [NewSticker(id, emoji)]
      ensures |stickers| == |old(stickers)| + 1 && stickers[..|old(stickers)|] == old(stickers)
      ensures stickers[|stickers| - 1] == StickerData(id, emoji, 150.0, 150.0, 1.0, 0.0)
      ensures !showStickerPanel && selectedSticker == old(selectedSticker)
    {
      stickers := stickers + [NewSticker(id, emoji)];
      showStickerPanel := false;
    }

    /** Drops every sticker with the id, keeping the others in order; the
        selection is not cleared even when it named a removed sticker. */
    method RemoveSticker(id: string)
      modifies this
      ensures stickers == RemoveById(old(stickers), id)
      ensures NoneWithId(stickers, id)
      ensures NoneWithId(old(stickers), id) ==> stickers == old(stickers)
      ensures showStickerPanel == old(showStickerPanel) && selectedSticker == old(selectedSticker)
    {
      stickers := RemoveById(stickers, id);
    }

    /** Merges the patch into every sticker with the id. */
    method UpdateSticker(id: string, updates: StickerPatch)
      modifies this
      ensures stickers == UpdateById(old(stickers), id, updates)
      ensures |stickers| == |old(stickers)|
      ensures showStickerPanel == old(showStickerPanel) && selectedSticker == old(selectedSticker)
    {
      stickers := UpdateById(stickers, id, updates);
    }

    /** Empties the list from any state; so a second reset changes nothing. */
    method ResetStickers()
      modifies this
      ensures stickers == []
      ensures showStickerPanel == old(showStickerPanel) && selectedSticker == old(selectedSticker)
    {
      stickers := [];
    }

    /** The exposed `setShowStickerPanel` setter. */
    method SetShowStickerPanel(show: bool)
      modifies this
      ensures showStickerPanel == show
      ensures stickers == old(stickers) && selectedSticker == old(selectedSticker)
    {
      showStickerPanel := show;
    }

    /** The exposed `setSelectedSticker` setter (`None` for `null`). */
    method SetSelectedSticker(id: Option<string>)
      modifies this
      ensures selectedSticker == id
      ensures stickers == old(stickers) && showStickerPanel == old(showStickerPanel)
    {
      selectedSticker := id;
    }
  }
}
