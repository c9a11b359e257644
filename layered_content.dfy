/** A content card with up to three depths of explanation and a button per depth. */
module LayeredContent {

  datatype Level = Simple | Medium | Detailed

  /** The button for `level` is rendered: Simple always, the others only when their content is given. */
  predicate Offered(level: Level, hasMedium: bool, hasDetailed: bool) {
    match level
    case Simple => true
    case Medium => hasMedium
    case Detailed => hasDetailed
  }

  /** The panel for `panel` is rendered and has the `block` class. */
  predicate PanelVisible(level: Level, hasMedium: bool, hasDetailed: bool, panel: Level) {
    Offered(panel, hasMedium, hasDetailed) && level == panel
  }

  /** When the current level is one that is offered, exactly its panel is visible. */
  lemma ExactlyOneVisible(level: Level, hasMedium: bool, hasDetailed: bool)
    requires Offered(level, hasMedium, hasDetailed)
    ensures PanelVisible(level, hasMedium, hasDetailed, level)
    ensures forall p :: PanelVisible(level, hasMedium, hasDetailed, p) ==> p == level
  {
  }

  class Card {
    const hasMedium: bool
    const hasDetailed: bool
    var level: Level

    ghost predicate Valid()
      reads this
    {
      Offered(level, hasMedium, hasDetailed)
    }

    /** The card starts at the simple level. */
    constructor (hasMedium: bool, hasDetailed: bool)
      ensures this.hasMedium == hasMedium && this.hasDetailed == hasDetailed
      ensures level == Simple && Valid()
    {
      this.hasMedium, this.hasDetailed := hasMedium, hasDetailed;
      level := Simple;
    }

    /** A level button; only offered buttons exist to be pressed. */
    method Select(l: Level)
      requires Valid() && Offered(l, hasMedium, hasDetailed)
      modifies this`level
      ensures level == l && Valid()
    {
      level := l;
    }

    function IsVisible(panel: Level): (b: bool)
      reads this
      requires Valid()
      ensures b <==> panel == level
    {
      ExactlyOneVisible(level, hasMedium, hasDetailed);
      PanelVisible(level, hasMedium, hasDetailed, panel)
    }
  }

  /** Pressing the same level twice is the same as pressing it once. */
  method SelectTwice(c: Card, l: Level)
    requires c.Valid() && Offered(l, c.hasMedium, c.hasDetailed)
    modifies c
    ensures c.level == l && c.Valid()
  {
    c.Select(l);
    c.Select(l);
  }
}
