/** `AudioController` (Audiomanager.cs): switches one looping audio source
    between a normal and a special music clip, restarting playback only
    when the clip actually changes. */
module Music {
  import opened Engine

  /** An `AudioClip` reference, by identity; `None` is a null clip. */
  type ClipId = nat

  /** An `AudioSource`: its clip, its loop flag, and how many times `Play`
      has been called on it. */
  class AudioSource {
    var clip: Option<ClipId>
    var loop: bool
    var playCalls: nat

    /** A source added by `AddComponent`: no clip, not looping, silent. */
    constructor ()
      ensures clip == None && !loop && playCalls == 0
    {
      clip := None;
      loop := false;
      playCalls := 0;
    }
  }

  /** What a `PlayNormalMusic`/`PlaySpecialMusic` call does to a source that
      holds `current`: the clip it holds afterwards, and whether `Play` is called. */
  datatype Switch = Switch(clip: Option<ClipId>, plays: bool)

  function SwitchTo(current: Option<ClipId>, target: Option<ClipId>): (r: Switch)
    ensures r.plays <==> target.Some? && current != target
    ensures target.Some? ==> r.clip == target
    ensures target.None? ==> r.clip == current
  {
    if target.Some? && current != target then Switch(target, true) else Switch(current, false)
  }

  /** Requesting the same music twice in a row plays it at most once: the
      second request changes nothing. */
  lemma SwitchIdempotent(current: Option<ClipId>, target: Option<ClipId>)
    ensures SwitchTo(SwitchTo(current, target).clip, target) == Switch(SwitchTo(current, target).clip, false)
  {}

  class AudioController {
    const normalMusic: Option<ClipId>
    const specialMusic: Option<ClipId>
    var source: AudioSource?

    constructor (normalMusic: Option<ClipId>, specialMusic: Option<ClipId>)
      ensures this.normalMusic == normalMusic && this.specialMusic == specialMusic
      ensures source == null
    {
      this.normalMusic := normalMusic;
      this.specialMusic := specialMusic;
      source := null;
    }

    /** `Start`: `existing` is the object's own `AudioSource`, if it has one;
        without one a looping source is added. Then normal music is requested. */
    method Start(existing: AudioSource?)
      modifies this, existing
      ensures source != null
      ensures existing != null ==> source == existing && source.loop == old(existing.loop)
      ensures existing == null ==> fresh(source) && source.loop
      ensures var before := if existing != null then old(existing.clip) else None;
              var calls := if existing != null then old(existing.playCalls) else 0;
              var s := SwitchTo(before, normalMusic);
              source.clip == s.clip && source.playCalls == calls + (if s.plays then 1 else 0)
    {
      source := existing;
      if source == null {
        source := new AudioSource();
        source.loop := true;
      }
      PlayNormalMusic();
    }

    method PlayNormalMusic()
      requires source != null
      modifies source
      ensures source.clip == SwitchTo(old(source.clip), normalMusic).clip
      ensures source.playCalls == old(source.playCalls) + (if SwitchTo(old(source.clip), normalMusic).plays then 1 else 0)
      ensures source.loop == old(source.loop)
    {
      if normalMusic.Some? && source.clip != normalMusic {
        source.clip := normalMusic;
        source.playCalls := source.playCalls + 1;
      }
    }

    method PlaySpecialMusic()
      requires source != null
      modifies source
      ensures source.clip == SwitchTo(old(source.clip), specialMusic).clip
      ensures source.playCalls == old(source.playCalls) + (if SwitchTo(old(source.clip), specialMusic).plays then 1 else 0)
      ensures source.loop == old(source.loop)
    {
      if specialMusic.Some? && source.clip != specialMusic {
        source.clip := specialMusic;
        source.playCalls := source.playCalls + 1;
      }
    }
  }
}
