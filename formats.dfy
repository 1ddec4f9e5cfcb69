/**
 * The static classifiers the plugin offers the player: which file extensions
 * and MIME types it decodes, the short name of its format, and its bitrate.
 */
module Formats {
  import opened CStrings

  /** fluidsynth_our_format_ext: the extension is "MID", compared ignoring case. */
  function OurFormatExt(ext: string): bool
  {
    CaseEqual(ext, "MID")
  }

  /** fluidsynth_our_format_mime, as written: the comparison against "audio/midi;" stops after 10 characters. */
  function OurFormatMime(mime: string): bool
  {
    CaseEqual(mime, MidiType) || CaseEqualN(mime, MidiType + ";", 10)
  }

  /** The MIME classifier with the length of "audio/midi;", so that the ';' is compared too. */
  function OurFormatMimeIntended(mime: string): bool
  {
    CaseEqual(mime, MidiType) || CaseEqualN(mime, MidiType + ";", 11)
  }

  /** fluidsynth_get_name: the three-letter name copied into the caller's four-byte buffer. */
  function GetName(file: string): (name: string)
    ensures name == "MID"
    ensures |name| + 1 <= 4
    ensures OurFormatExt(name)
  {
    CaseEqualMeans("MID", "MID");
    "MID"
  }

  /** fluidsynth_get_bitrate: a MIDI file has no bitrate, reported as the "unknown" value -1. */
  function GetBitrate(): (bitrate: int)
    ensures bitrate == -1
  {
    -1
  }

  lemma LowerMid()
    ensures Lower('M') == 'm' && Lower('I') == 'i' && Lower('D') == 'd'
  {
  }

  /** An extension is ours exactly when it is "mid" in any mix of cases. */
  lemma OurFormatExtMeans(ext: string)
    requires NoNul(ext)
    ensures OurFormatExt(ext) <==> |ext| == 3 && Lower(ext[0]) == 'm' && Lower(ext[1]) == 'i' && Lower(ext[2]) == 'd'
  {
    CaseEqualMeans(ext, "MID");
    LowerMid();
    if |ext| == 3 && Lower(ext[0]) == 'm' && Lower(ext[1]) == 'i' && Lower(ext[2]) == 'd' {
      forall i | 0 <= i < 3 ensures Lower(ext[i]) == Lower("MID"[i]) {
        assert i == 0 || i == 1 || i == 2;
      }
    }
  }

  /** The type MIDI files are served as. */
  const MidiType: string := "audio/midi"

  /**
   * A MIME type is ours exactly when its first ten characters are "audio/midi"
   * ignoring case: the exact comparison adds nothing, and whatever follows the
   * tenth character, ';' or not, is never looked at.
   */
  lemma OurFormatMimeMeans(mime: string)
    requires NoNul(mime)
    ensures OurFormatMime(mime) <==> |mime| >= 10 && SameIgnoringCase(mime[..10], MidiType)
  {
    assert NoNul(MidiType) && NoNul(MidiType + ";");
    assert MidiType + ";" == "audio/midi;";
    CaseEqualMeans(mime, MidiType);
    CaseEqualNMeans(mime, MidiType + ";", 10);
    assert Take(MidiType + ";", 10) == MidiType;
    if |mime| >= 10 {
      assert Take(mime, 10) == mime[..10];
    }
    if CaseEqual(mime, MidiType) {
      assert |mime| == 10 && mime[..10] == mime;
    }
  }

  /** Whatever follows "audio/midi" is accepted: here a type that is not MIDI with parameters. */
  lemma MimeSemicolonNotChecked(mime: string)
    requires mime == MidiType + "file"
    ensures OurFormatMime(mime)
    ensures !OurFormatMimeIntended(mime)
  {
    assert NoNul(mime);
    assert mime[..10] == MidiType;
    SameIgnoringCaseReflexive(MidiType);
    OurFormatMimeMeans(mime);
    OurFormatMimeIntendedMeans(mime);
    assert mime[..11][10] == 'f' && (MidiType + ";")[10] == ';';
    assert Lower(mime[..11][10]) != Lower((MidiType + ";")[10]);
  }

  /**
   * With the corrected length a MIME type is ours when it is "audio/midi"
   * ignoring case, or when it starts with "audio/midi;" ignoring case.
   */
  lemma OurFormatMimeIntendedMeans(mime: string)
    requires NoNul(mime)
    ensures OurFormatMimeIntended(mime) <==>
              SameIgnoringCase(mime, MidiType) || (|mime| >= 11 && SameIgnoringCase(mime[..11], MidiType + ";"))
  {
    assert NoNul(MidiType) && NoNul(MidiType + ";");
    assert MidiType + ";" == "audio/midi;";
    CaseEqualMeans(mime, MidiType);
    CaseEqualNMeans(mime, MidiType + ";", 11);
    assert Take(MidiType + ";", 11) == MidiType + ";";
    if |mime| >= 11 {
      assert Take(mime, 11) == mime[..11];
    } else {
      assert |Take(mime, 11)| != 11;
    }
  }
}
