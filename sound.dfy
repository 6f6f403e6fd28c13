/** The sound catalogue (lib/AlarmClock/src/Sound.hpp): sounds on the MP3
    player's card, each with an id, a name, whether it may be picked at
    random, and whether the random pick has already used it. */
module Sounds {
  import opened Common

  datatype Sound = Sound(id: Byte, name: string, allowRandom: bool, played: bool)

  /** The JSON object of a sound: `played` is not serialised. */
  datatype SoundJson = SoundJson(id: Byte, name: string, allowRandom: bool)

  /** Sound(id, name, allowRandom): not played yet. */
  function NewSound(id: Byte, name: string, allowRandom: bool): (s: Sound)
    ensures s.id == id && s.name == name && s.allowRandom == allowRandom && !s.played
  {
    Sound(id, name, allowRandom, false)
  }

  function ToJson(s: Sound): SoundJson
  {
    SoundJson(s.id, s.name, s.allowRandom)
  }

  function FromJson(j: SoundJson): Sound
  {
    NewSound(j.id, j.name, j.allowRandom)
  }

  /** soundsToJson: one object per sound, in order. */
  function SoundsToJson(sounds: seq<Sound>): (js: seq<SoundJson>)
    ensures |js| == |sounds|
    ensures forall i :: 0 <= i < |sounds| ==> js[i] == ToJson(sounds[i])
  {
    if |sounds| == 0 then [] else SoundsToJson(sounds[..|sounds| - 1]) + [ToJson(sounds[|sounds| - 1])]
  }

  /** soundsFromJson: one sound per object, in order. */
  function SoundsFromJson(js: seq<SoundJson>): (sounds: seq<Sound>)
    ensures |sounds| == |js|
    ensures forall i :: 0 <= i < |js| ==> sounds[i] == FromJson(js[i])
  {
    if |js| == 0 then [] else SoundsFromJson(js[..|js| - 1]) + [FromJson(js[|js| - 1])]
  }

  /** Reading back what soundsToJson wrote keeps ids, names, allowRandom
      flags and order, and forgets the played flags. */
  lemma SoundsJsonRoundTrip(sounds: seq<Sound>)
    ensures |SoundsFromJson(SoundsToJson(sounds))| == |sounds|
    ensures forall i :: 0 <= i < |sounds| ==> SoundsFromJson(SoundsToJson(sounds))[i] == sounds[i].(played := false)
  {
  }

  /** getSoundById: the index of the first sound with that id, or |sounds| (end). */
  function GetSoundById(id: Byte, sounds: seq<Sound>): (i: nat)
    ensures i <= |sounds|
    ensures i < |sounds| ==> sounds[i].id == id
    ensures forall j :: 0 <= j < i ==> sounds[j].id != id
  {
    if |sounds| == 0 then 0
    else if sounds[0].id == id then 0
    else 1 + GetSoundById(id, sounds[1..])
  }

  /** A sound the random pick may choose now. */
  predicate Eligible(s: Sound)
  {
    s.allowRandom && !s.played
  }

  /** The `copy_if` pool: the eligible sounds, in catalogue order. */
  function Pool(sounds: seq<Sound>): (p: seq<Sound>)
    ensures |p| <= |sounds|
    ensures forall s :: s in p <==> s in sounds && Eligible(s)
  {
    if |sounds| == 0 then []
    else (if Eligible(sounds[0]) then [sounds[0]] else []) + Pool(sounds[1..])
  }

  /** Every played flag cleared (`for_each ... played = false`). */
  function ClearPlayed(sounds: seq<Sound>): (r: seq<Sound>)
    ensures |r| == |sounds|
    ensures forall i :: 0 <= i < |sounds| ==> r[i] == sounds[i].(played := false)
  {
    if |sounds| == 0 then [] else ClearPlayed(sounds[..|sounds| - 1]) + [sounds[|sounds| - 1].(played := false)]
  }

  /** The catalogue the pick works on: played flags are cleared once every
      random-allowed sound has been played. */
  function Refreshed(sounds: seq<Sound>): seq<Sound>
  {
    if |Pool(sounds)| == 0 then ClearPlayed(sounds) else sounds
  }

  predicate UniqueIds(sounds: seq<Sound>)
  {
    forall i, j :: 0 <= i < j < |sounds| ==> sounds[i].id != sounds[j].id
  }

  /** After the refresh the pool is empty only if no sound allows random picks. */
  lemma RefreshedPoolNonEmpty(sounds: seq<Sound>)
    requires exists i :: 0 <= i < |sounds| && sounds[i].allowRandom
    ensures |Pool(Refreshed(sounds))| > 0
  {
    var i :| 0 <= i < |sounds| && sounds[i].allowRandom;
    if |Pool(sounds)| == 0 {
      assert ClearPlayed(sounds)[i] in Pool(ClearPlayed(sounds));
    } else {
    }
  }

  /** Marking an eligible sound played shrinks the pool by exactly one: the
      pick draws without replacement until the pool is used up. */
  lemma {:induction false} MarkPlayedShrinksPool(sounds: seq<Sound>, i: nat)
    requires i < |sounds| && Eligible(sounds[i])
    ensures |Pool(sounds[i := sounds[i].(played := true)])| == |Pool(sounds)| - 1
    decreases |sounds|
  {
    var after := sounds[i := sounds[i].(played := true)];
    if i > 0 {
      assert after[1..] == sounds[1..][i - 1 := sounds[i].(played := true)];
      MarkPlayedShrinksPool(sounds[1..], i - 1);
    } else {
      assert after[1..] == sounds[1..];
    }
  }

  /** findRandomSound: refreshes the played flags if the pool is empty,
      then walks the catalogue drawing a fresh pool index for each sound
      and selects the first sound whose id equals the drawn entry's id,
      marking it played. The source asserts that such a sound is found
      (None: that assertion fails) and returns no value; the model returns
      the selected index. The source needs a random-allowed sound, or the
      distribution's range 0..-1 is empty. */
  method FindRandomSound(sounds: array<Sound>) returns (selected: Option<nat>)
    requires exists i :: 0 <= i < sounds.Length && sounds[i].allowRandom
    modifies sounds
    ensures var base := Refreshed(old(sounds[..]));
      match selected
      case None => sounds[..] == base
      case Some(i) =>
        i < sounds.Length && sounds[..] == base[i := base[i].(played := true)] &&
        (exists e :: e in Pool(base) && e.id == base[i].id) &&
        (UniqueIds(base) ==> Eligible(base[i]))
    ensures forall k :: 0 <= k < sounds.Length ==>
      sounds[k].id == old(sounds[k].id) && sounds[k].allowRandom == old(sounds[k].allowRandom)
    ensures selected.Some? ==> exists k :: 0 <= k < sounds.Length && sounds[k].allowRandom && sounds[k].id == sounds[selected.value].id
  {
    var entries := RefreshPlayed(sounds);
    RefreshedKeepsCatalogue(old(sounds[..]));
    ghost var before := sounds[..];
    selected := SelectAndMark(sounds, entries);
    forall k | 0 <= k < sounds.Length
      ensures sounds[k].id == old(sounds[k].id) && sounds[k].allowRandom == old(sounds[k].allowRandom)
    {
      assert sounds[k].id == before[k].id && sounds[k].allowRandom == before[k].allowRandom;
      assert old(sounds[k]) == old(sounds[..])[k];
    }
  }

  /** The copy_if into the pool, and the refresh when the pool is empty. */
  method RefreshPlayed(sounds: array<Sound>) returns (entries: seq<Sound>)
    requires exists i :: 0 <= i < sounds.Length && sounds[i].allowRandom
    modifies sounds
    ensures sounds[..] == Refreshed(old(sounds[..]))
    ensures entries == Pool(sounds[..]) && |entries| > 0
  {
    entries := Pool(sounds[..]);
    if |entries| == 0 {
      ClearAllPlayed(sounds);
      entries := Pool(sounds[..]);
    }
    RefreshedPoolNonEmpty(old(sounds[..]));
  }

  /** The refresh touches only played flags. */
  lemma RefreshedKeepsCatalogue(sounds: seq<Sound>)
    ensures |Refreshed(sounds)| == |sounds|
    ensures forall k :: 0 <= k < |sounds| ==>
      Refreshed(sounds)[k].id == sounds[k].id && Refreshed(sounds)[k].allowRandom == sounds[k].allowRandom
  {
  }

  /** The `for_each` that clears every played flag. */
  method ClearAllPlayed(sounds: array<Sound>)
    modifies sounds
    ensures sounds[..] == ClearPlayed(old(sounds[..]))
  {
    var k := 0;
    while k < sounds.Length
      invariant 0 <= k <= sounds.Length
      invariant sounds[..k] == ClearPlayed(old(sounds[..]))[..k]
      invariant sounds[k..] == old(sounds[..])[k..]
    {
      sounds[k] := sounds[k].(played := false);
      k := k + 1;
    }
  }

  /** The `find_if` with a fresh draw per sound, then `played = true` on the
      selected sound. */
  method SelectAndMark(sounds: array<Sound>, entries: seq<Sound>) returns (selected: Option<nat>)
    requires entries == Pool(sounds[..]) && |entries| > 0
    modifies sounds
    ensures match selected
      case None => sounds[..] == old(sounds[..])
      case Some(i) =>
        i < sounds.Length && sounds[..] == old(sounds[..])[i := old(sounds[i]).(played := true)] &&
        (exists e :: e in Pool(old(sounds[..])) && e.id == old(sounds[i]).id) &&
        (UniqueIds(old(sounds[..])) ==> Eligible(old(sounds[i])))
    ensures selected.Some? ==> exists k :: 0 <= k < sounds.Length && sounds[k].allowRandom && sounds[k].id == sounds[selected.value].id
  {
    ghost var base := sounds[..];
    var i := 0;
    while i < sounds.Length
      invariant 0 <= i <= sounds.Length && sounds[..] == base
    {
      var draw :| 0 <= draw < |entries|;
      if sounds[i].id == entries[draw].id {
        assert entries[draw] in Pool(base);
        ghost var j :| 0 <= j < |base| && base[j] == entries[draw];
        assert base[j].id == base[i].id;
        sounds[i] := sounds[i].(played := true);
        assert sounds[j].allowRandom && sounds[j].id == sounds[i].id;
        return Some(i);
      }
      i := i + 1;
    }
    return None;
  }
}
