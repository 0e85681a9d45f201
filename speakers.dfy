/**
 * Speaker labels of the speaker-identification script: the density
 * clustering's label per embedding frame, how a transcript segment picks one
 * by position, how a label is named, and how many speakers are reported.
 */
module Speakers {
  import opened Wrappers
  import opened PyStr

  /** The label density clustering gives to frames in no cluster. */
  const NOISE_LABEL: int := -1

  const SPEAKER_PREFIX: string := "Спикер "
  const UNKNOWN_SPEAKER: string := "Неизвестный спикер"

  /** The message the empty label array raises when a segment looks up its label. */
  const EMPTY_LABELS_ERROR: string := "index -1 is out of bounds for axis 0 with size 0"

  /**
   * Python indexing `s[k]`: a negative `k` counts from the end; outside
   * `-|s| <= k < |s|` it raises, modelled as None.
   */
  function PyIndex<T>(s: seq<T>, k: int): (r: Option<T>)
    ensures r.Some? <==> -|s| <= k < |s|
    ensures 0 <= k < |s| ==> r == Some(s[k])
    ensures -|s| <= k < 0 ==> r == Some(s[|s| + k])
  {
    if 0 <= k < |s| then Some(s[k])
    else if -|s| <= k < 0 then Some(s[|s| + k])
    else None
  }

  function Min(a: int, b: int): int { if a <= b then a else b }

  /**
   * `speaker_labels[min(i, len(speaker_labels) - 1)]` for segment `i`:
   * positional, clamped to the last label, and failing only when there are
   * no labels at all.
   */
  function SegmentLabel(labels: seq<int>, i: nat): (r: Option<int>)
    ensures r.None? <==> |labels| == 0
    ensures i < |labels| ==> r == Some(labels[i])
    ensures 0 < |labels| <= i ==> r == Some(labels[|labels| - 1])
  {
    PyIndex(labels, Min(i, |labels| - 1))
  }

  /** `f"Спикер {n}"` for a cluster label, "Неизвестный спикер" for noise. */
  function SpeakerName(labelValue: int): (name: string)
    ensures labelValue == NOISE_LABEL <==> name == UNKNOWN_SPEAKER
    ensures labelValue != NOISE_LABEL ==> name == SPEAKER_PREFIX + IntToString(labelValue)
  {
    if labelValue != NOISE_LABEL then
      assert (SPEAKER_PREFIX + IntToString(labelValue))[0] != UNKNOWN_SPEAKER[0];
      SPEAKER_PREFIX + IntToString(labelValue)
    else UNKNOWN_SPEAKER
  }

  /** Reads a speaker name back to its label: the partner of SpeakerName. */
  function ParseSpeakerName(name: string): Option<int>
  {
    if name == UNKNOWN_SPEAKER then Some(NOISE_LABEL)
    else if |SPEAKER_PREFIX| <= |name| && name[..|SPEAKER_PREFIX|] == SPEAKER_PREFIX then
      match ParseInt(name[|SPEAKER_PREFIX|..])
      case Some(n) => if n != NOISE_LABEL then Some(n) else None
      case None => None
    else None
  }

  /** Every label, noise included, can be read back from its name. */
  lemma SpeakerNameRoundTrip(labelValue: int)
    ensures ParseSpeakerName(SpeakerName(labelValue)) == Some(labelValue)
  {
    var name := SpeakerName(labelValue);
    if labelValue != NOISE_LABEL {
      IntToStringRoundTrip(labelValue);
      assert name[..|SPEAKER_PREFIX|] == SPEAKER_PREFIX;
      assert name[|SPEAKER_PREFIX|..] == IntToString(labelValue);
    }
  }

  /** So two segments show the same speaker name exactly when their labels agree. */
  lemma SpeakerNameInjective(a: int, b: int)
    requires SpeakerName(a) == SpeakerName(b)
    ensures a == b
  {
    SpeakerNameRoundTrip(a);
    SpeakerNameRoundTrip(b);
  }

  /** The set of labels a label array holds. */
  function LabelSet(labels: seq<int>): set<int>
  {
    set l | l in labels
  }

  /**
   * `len(set(labels)) - (1 if -1 in labels else 0)`: the number of distinct
   * labels other than noise.
   */
  function ClusterCount(labels: seq<int>): (n: nat)
    ensures n == |LabelSet(labels) - {NOISE_LABEL}|
    ensures n <= |labels|
    ensures n == 0 <==> forall i :: 0 <= i < |labels| ==> labels[i] == NOISE_LABEL
  {
    var all := LabelSet(labels);
    if NOISE_LABEL in labels then
      assert NOISE_LABEL in all;
      NoNoiseCount(labels);
      |all| - 1
    else
      assert all - {NOISE_LABEL} == all;
      NoNoiseCount(labels);
      |all|
  }

  lemma NoNoiseCount(labels: seq<int>)
    ensures |LabelSet(labels) - {NOISE_LABEL}| <= |labels| - (if NOISE_LABEL in labels then 1 else 0)
    ensures |LabelSet(labels) - {NOISE_LABEL}| == 0 <==> forall i :: 0 <= i < |labels| ==> labels[i] == NOISE_LABEL
  {
    var others := LabelSet(labels) - {NOISE_LABEL};
    LabelSetSize(labels);
    if NOISE_LABEL in labels {
      assert LabelSet(labels) == others + {NOISE_LABEL};
    }
    if others == {} {
      forall i | 0 <= i < |labels| ensures labels[i] == NOISE_LABEL {
        assert labels[i] in LabelSet(labels);
        assert labels[i] !in others;
      }
    }
    if forall i :: 0 <= i < |labels| ==> labels[i] == NOISE_LABEL {
      assert forall l :: l in LabelSet(labels) ==> l == NOISE_LABEL;
      assert others == {};
    }
  }

  /** An array of `n` labels holds at most `n` distinct ones. */
  lemma {:induction false} LabelSetSize(labels: seq<int>)
    ensures |LabelSet(labels)| <= |labels|
  {
    if labels != [] {
      var rest := labels[1..];
      LabelSetSize(rest);
      assert LabelSet(labels) == LabelSet(rest) + {labels[0]} by {
        assert labels == [labels[0]] + rest;
      }
    }
  }
}
