// The hardware sink label (src/ui/hardware_sink.rs): what the UI shows as
// the default output, which keeps the last known sink while the default is
// momentarily unset.
module HardwareSink {
  import opened Base
  import opened RegistryTypes

  const DETECTING: TargetDescription := TargetDescription("(detecting hardware sink...)", "(pending)")

  /** A summary with no sink at all: both texts "(none)". */
  predicate IsNone(d: TargetDescription)
  {
    d.display == "(none)" && d.raw == "(none)"
  }

  /** The summary of the snapshot's default sink. */
  function Summary(snapshot: RegistrySnapshot): (r: TargetDescription)
    ensures snapshot.defaults.audioSink.None? ==> IsNone(r)
  {
    DescribeDefaultTarget(snapshot, snapshot.defaults.audioSink)
  }

  class HardwareSinkCache {
    var visible: TargetDescription
    var lastKnown: Option<TargetDescription>

    /** A remembered sink is never a "(none)" summary, and once there is one it is what is shown. */
    ghost predicate Valid()
      reads this
    {
      lastKnown.Some? ==> !IsNone(lastKnown.value) && visible == lastKnown.value
    }

    /** new: the detecting placeholder, nothing remembered. */
    constructor ()
      ensures Valid() && visible == DETECTING && lastKnown == None
    {
      visible := DETECTING;
      lastKnown := None;
    }

    /** label: the display text of what is shown. */
    function Label(): (r: string)
      reads this
      ensures r == visible.display
    {
      visible.display
    }

    /**
     * update: a known sink is shown and remembered; a "(none)" summary
     * shows the remembered sink when there is one, else "(none)".
     */
    method Update(snapshot: RegistrySnapshot)
      requires Valid()
      modifies this
      ensures Valid()
      ensures !IsNone(Summary(snapshot)) ==> visible == Summary(snapshot) && lastKnown == Some(Summary(snapshot))
      ensures IsNone(Summary(snapshot)) ==> lastKnown == old(lastKnown)
      ensures IsNone(Summary(snapshot)) && old(lastKnown).Some? ==> visible == old(lastKnown).value
      ensures IsNone(Summary(snapshot)) && old(lastKnown).None? ==> visible == Summary(snapshot)
      ensures old(lastKnown).Some? ==> lastKnown.Some? && !IsNone(visible)
    {
      var summary := Summary(snapshot);
      if summary.display != "(none)" || summary.raw != "(none)" {
        lastKnown := Some(summary);
        visible := summary;
      } else if lastKnown.Some? {
        visible := lastKnown.value;
      } else {
        visible := summary;
      }
    }
  }
}
