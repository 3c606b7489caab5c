/** The user-facing settings of the game's sound manager; the synthesis and playback are not modelled. */
module Sound {
  import opened Controls

  class SoundManager {
    var soundsEnabled: bool
    var musicEnabled: bool
    var volume: real

    /** Sound effects on, background music off, volume 0.7. */
    constructor ()
      ensures soundsEnabled && !musicEnabled && volume == 0.7
    {
      soundsEnabled := true;
      musicEnabled := false;
      volume := 0.7;
    }

    /** set_volume: the master volume, clamped to [0, 1]. */
    method SetVolume(v: real)
      modifies this
      ensures volume == Clamp(0.0, 1.0, v)
      ensures 0.0 <= volume <= 1.0 && (0.0 <= v <= 1.0 ==> volume == v)
      ensures soundsEnabled == old(soundsEnabled) && musicEnabled == old(musicEnabled)
    {
      volume := Clamp(0.0, 1.0, v);
    }

    /** toggle_sounds: flips whether sound effects play. */
    method ToggleSounds()
      modifies this
      ensures soundsEnabled == !old(soundsEnabled)
      ensures musicEnabled == old(musicEnabled) && volume == old(volume)
    {
      soundsEnabled := !soundsEnabled;
    }

    /** toggle_music: flips whether background music plays (stopping the mixer is not modelled). */
    method ToggleMusic()
      modifies this
      ensures musicEnabled == !old(musicEnabled)
      ensures soundsEnabled == old(soundsEnabled) && volume == old(volume)
    {
      musicEnabled := !musicEnabled;
    }
  }
}
