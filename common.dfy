/** Small shared vocabulary: optional values, stage outcomes, and the string
    helpers the services build their text with. */
module Common {

  datatype Option<+T> = None | Some(value: T) {
    /** The `??` operator: the value if present, otherwise `default`. */
    function GetOr(default: T): T {
      match this
      case Some(v) => v
      case None => default
    }
  }

  /** The outcome of an operation that either produces a value or throws an
      error carrying a message. */
  datatype Result<+T> = Ok(value: T) | Err(message: string)

  /** The outcome of an effect that produces nothing (writing a file, running
      ffmpeg): it either completes or throws. */
  datatype Step = Done | Fault(message: string)

  /** What a `fetch` call yields: it rejects (network error), or it resolves
      to a response with an `ok` flag and a body that `response.json()` either
      parses into an object (`Some`) or fails on / finds to be `null` (`None`). */
  datatype FetchResult<+P> = NetworkError | Response(ok: bool, body: Option<P>)

  function Min(a: int, b: int): int { if a <= b then a else b }

  /** `Array.prototype.join`: the items with `sep` between consecutive ones. */
  function Join(items: seq<string>, sep: string): string
  {
    if |items| == 0 then ""
    else if |items| == 1 then items[0]
    else items[0] + sep + Join(items[1..], sep)
  }

  /** `String.prototype.split` on a single character: the maximal runs of
      characters between occurrences of `sep` (there is always at least one). */
  function Split(s: string, sep: char): (parts: seq<string>)
    ensures |parts| >= 1
  {
    if |s| == 0 then [""]
    else
      var rest := Split(s[1..], sep);
      if s[0] == sep then [""] + rest
      else [[s[0]] + rest[0]] + rest[1..]
  }

  /** Spreading a string (`[...s]`) yields its characters as one-character strings. */
  function Chars(s: string): (r: seq<string>)
    ensures |r| == |s|
    ensures forall i :: 0 <= i < |s| ==> r[i] == [s[i]]
  {
    seq(|s|, i requires 0 <= i < |s| => [s[i]])
  }

  /** A line free of `sep` is read back whole by `Split`, glued to the first
      part of what follows it. */
  lemma {:induction false} SplitAfterLine(line: string, rest: string, sep: char)
    requires sep !in line
    ensures Split(line + rest, sep) == [line + Split(rest, sep)[0]] + Split(rest, sep)[1..]
  {
    var parts := Split(rest, sep);
    if line == [] {
      assert line + rest == rest;
      assert parts == [parts[0]] + parts[1..];
      assert line + parts[0] == parts[0];
    } else {
      SplitAfterLine(line[1..], rest, sep);
      assert (line + rest)[1..] == line[1..] + rest;
      assert [line[0]] + (line[1..] + Split(rest, sep)[0]) == line + Split(rest, sep)[0];
    }
  }

  /** Join and Split are inverse on non-empty lists of lines that do not
      contain the separator. */
  lemma {:induction false} SplitJoin(items: seq<string>, sep: char)
    requires |items| >= 1
    requires forall i :: 0 <= i < |items| ==> sep !in items[i]
    ensures Split(Join(items, [sep]), sep) == items
  {
    if |items| == 1 {
      SplitAfterLine(items[0], "", sep);
      assert items[0] + "" == items[0];
    } else {
      var rest := Join(items[1..], [sep]);
      SplitJoin(items[1..], sep);
      SplitAfterLine(items[0], [sep] + rest, sep);
      assert ([sep] + rest)[0] == sep && ([sep] + rest)[1..] == rest;
      assert Split([sep] + rest, sep) == [""] + items[1..];
      assert Join(items, [sep]) == items[0] + ([sep] + rest);
      assert items[0] + "" == items[0];
      assert items == [items[0]] + items[1..];
    }
  }

  /** Joining lines free of a character with a separator free of it gives a
      text free of it. */
  lemma {:induction false} JoinAvoids(items: seq<string>, sep: string, c: char)
    requires c !in sep
    requires forall i :: 0 <= i < |items| ==> c !in items[i]
    ensures c !in Join(items, sep)
  {
    if |items| > 1 {
      JoinAvoids(items[1..], sep, c);
    }
  }
}
