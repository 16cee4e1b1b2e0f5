/** The two pure rules of main.py that sit on top of the engines: the
    colour a status string is shown in, and the headline signal combined from
    two venues' statuses. */
module CombinedSignal {
  import opened Engine

  /** The colorama foreground colour a status is wrapped in. */
  datatype Colour = GreenFore | RedFore | YellowFore

  /** A status string wrapped in a colour (the reset code that follows it is
      not modelled). */
  datatype Painted = Painted(colour: Colour, text: string)

  /** `c_status`: "GREEN" is green, "RED" is red, and every other string,
      "WAIT" included, falls through to yellow. The text itself is kept. */
  function StatusColour(s: string): (p: Painted)
    ensures p.text == s
    ensures p.colour == GreenFore <==> s == "GREEN"
    ensures p.colour == RedFore <==> s == "RED"
    ensures p.colour == YellowFore <==> s != "GREEN" && s != "RED"
  {
    if s == "GREEN" then Painted(GreenFore, s)
    else if s == "RED" then Painted(RedFore, s)
    else Painted(YellowFore, s)
  }

  /** The strict-confirmation rule: RED if either venue is RED, GREEN only
      when both are GREEN, WAIT otherwise. */
  function Combine(s1: string, s2: string): (r: string)
    ensures r == "RED" <==> s1 == "RED" || s2 == "RED"
    ensures r == "GREEN" <==> s1 == "GREEN" && s2 == "GREEN"
    ensures r == "WAIT" <==> s1 != "RED" && s2 != "RED" && !(s1 == "GREEN" && s2 == "GREEN")
    ensures r in {"RED", "GREEN", "WAIT"}
  {
    if s1 == "RED" || s2 == "RED" then "RED"
    else if s1 == "GREEN" && s2 == "GREEN" then "GREEN"
    else "WAIT"
  }

  /** Fed with the status names the engines produce, the combined signal is
      RED when either engine is RED, GREEN when both are GREEN, and WAIT
      otherwise; it is always the name of some status. */
  lemma CombineStatuses(a: Status, b: Status)
    ensures Combine(a.Name(), b.Name()) == Red.Name() <==> a == Red || b == Red
    ensures Combine(a.Name(), b.Name()) == Green.Name() <==> a == Green && b == Green
    ensures Combine(a.Name(), b.Name()) == Wait.Name() <==> a != Red && b != Red && !(a == Green && b == Green)
  {
  }

  /** Which venue is listed first does not matter. */
  lemma CombineSymmetric(s1: string, s2: string)
    ensures Combine(s1, s2) == Combine(s2, s1)
  {
  }
}
