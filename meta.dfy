/** The per-variation metadata object: the ordered labels gathered while a variation is built. */
module Metadata {
  import opened Outcomes
  import opened Tags

  class Meta {
    var labels: seq<Label>

    /** `Meta()`: a fresh object has no labels. */
    constructor ()
      ensures labels == []
    {
      labels := [];
    }

    /** `Meta(labels=...)`, the form in which the handlers create one. */
    constructor WithLabels(initial: seq<Label>)
      ensures labels == initial
    {
      labels := initial;
    }

    /**
     * `add_label`: a present label goes at the end, an absent one changes
     * nothing; existing labels keep their place.
     */
    method AddLabel(newLabel: Option<Label>)
      modifies this
      ensures labels == old(labels) + (if newLabel.Some? then [newLabel.value] else [])
      ensures old(labels) <= labels
    {
      if newLabel.Some? {
        labels := labels + [newLabel.value];
      }
    }
  }
}
