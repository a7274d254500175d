/**
  The part of Go's `fmt.Sprintf` (and of `fmt.Errorf`, which formats the same way)
  that the updater relies on: format strings whose only directives are `%s` and
  `%v`, applied to string arguments, where both directives insert the argument
  unchanged.

  A format string is kept parsed, as a list of literal text and directives;
  `Source` gives back the format string as it is written in Go. The literal
  text of the program's format strings holds no `%`, so no escaping is modelled.
*/
module Fmt {

  datatype Template =
    | End
    | Text(text: string, rest: Template)
    | Verb(verb: char, rest: Template)

  /** Every directive is `%s` or `%v`. */
  predicate WellFormed(t: Template)
  {
    match t
    case End => true
    case Text(_, rest) => WellFormed(rest)
    case Verb(c, rest) => (c == 's' || c == 'v') && WellFormed(rest)
  }

  /** `t` is how its source text parses: every piece of literal text is non-empty,
      holds no `%`, and is followed by a directive or the end. */
  predicate Parsed(t: Template)
  {
    match t
    case End => true
    case Text(s, rest) => |s| > 0 && '%' !in s && !rest.Text? && Parsed(rest)
    case Verb(_, rest) => Parsed(rest)
  }

  /** `s` holds no `%`: stated on its own so that each literal is checked in isolation. */
  lemma NoPercent(s: string)
    requires forall i :: 0 <= i < |s| ==> s[i] != '%'
    ensures '%' !in s
  {
  }

  /** The format string as written in the Go source. */
  function Source(t: Template): string
  {
    match t
    case End => ""
    case Text(s, rest) => s + Source(rest)
    case Verb(c, rest) => ['%', c] + Source(rest)
  }

  /** The number of arguments the format string consumes. */
  function Holes(t: Template): nat
  {
    match t
    case End => 0
    case Text(_, rest) => Holes(rest)
    case Verb(_, rest) => 1 + Holes(rest)
  }

  /** `fmt.Sprintf(Source(t), args...)`, for exactly as many arguments as `t` consumes. */
  function Sprintf(t: Template, args: seq<string>): string
    requires WellFormed(t) && Holes(t) == |args|
  {
    match t
    case End => ""
    case Text(s, rest) => s + Sprintf(rest, args)
    case Verb(_, rest) => args[0] + Sprintf(rest, args[1..])
  }

  /** A directive inserts the first argument and leaves the rest to the remaining template. */
  lemma SprintfVerb(c: char, rest: Template, a: string, args: seq<string>)
    requires WellFormed(Verb(c, rest)) && Holes(rest) == |args|
    ensures Sprintf(Verb(c, rest), [a] + args) == a + Sprintf(rest, args)
  {
    assert ([a] + args)[1..] == args;
  }

  /** Concatenation is associative; stated for the five-part texts the templates produce. */
  lemma Assoc5(a: string, b: string, c: string, d: string, e: string)
    ensures a + (b + (c + (d + (e + "")))) == a + b + c + d + e
  {
  }
}
