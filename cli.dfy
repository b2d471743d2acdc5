/**
 * The parsing helpers of the command line (cli.py): ids made from names,
 * `name`/`@id` resource references, `name quantity` argument pairs, the
 * `h:m:s` cycle time, the id a new recipe or resource gets, and the lookup of
 * a command by its name.
 */
module Cli {
  import opened Wrappers
  import opened Text

  /** `str.replace(' ', '_')`. */
  function SpacesToUnderscores(s: string): (r: string)
    ensures |r| == |s|
    ensures forall i | 0 <= i < |s| :: r[i] == if s[i] == ' ' then '_' else s[i]
  {
    if s == [] then [] else [if s[0] == ' ' then '_' else s[0]] + SpacesToUnderscores(s[1..])
  }

  /** `generate_id(name)`: the name lower-cased with every space turned into `_`. */
  function GenerateId(name: string): (r: string)
    ensures |r| == |name|
    ensures forall i | 0 <= i < |name| :: r[i] == if name[i] == ' ' then '_' else LowerChar(name[i])
  {
    SpacesToUnderscores(Lower(name))
  }

  /** A generated id holds no space and no upper-case ASCII letter. */
  lemma GenerateIdClean(name: string)
    ensures forall i | 0 <= i < |name| :: GenerateId(name)[i] != ' ' && !('A' <= GenerateId(name)[i] <= 'Z')
  {
  }

  /** Generating an id from a generated id changes nothing. */
  lemma GenerateIdIdempotent(name: string)
    ensures GenerateId(GenerateId(name)) == GenerateId(name)
  {
    var g := GenerateId(name);
    GenerateIdClean(name);
    assert forall i | 0 <= i < |g| :: LowerChar(g[i]) == g[i];
  }

  /** `ResourceStub`: a resource referred to by name or by id, exactly one of them set. */
  datatype ResourceStub = ResourceStub(name: Option<string>, id: Option<string>)

  /**
   * `ResourceStub.parse(s)`: `@x` refers to id `x`, a lone `@` is an error
   * (None), anything else is a name.
   */
  function ParseStub(s: string): (r: Option<ResourceStub>)
    ensures r.None? <==> s == "@"
    ensures r.Some? ==> (r.value.name.None? <==> r.value.id.Some?)
    ensures r.Some? && r.value.id.Some? ==> s == "@" + r.value.id.value
    ensures r.Some? && r.value.name.Some? ==> s == r.value.name.value && (s == [] || s[0] != '@')
  {
    if |s| > 0 && s[0] == '@' then
      if |s| <= 1 then None else Some(ResourceStub(None, Some(s[1..])))
    else Some(ResourceStub(Some(s), None))
  }

  /** The text a stub is written as on the command line. */
  function StubText(st: ResourceStub): string
  {
    if st.id.Some? then "@" + st.id.value else if st.name.Some? then st.name.value else ""
  }

  /** A stub with a nonempty id, or a name not starting with `@`. */
  predicate WellFormedStub(st: ResourceStub)
  {
    match st
    case ResourceStub(None, Some(id)) => id != []
    case ResourceStub(Some(name), None) => name == [] || name[0] != '@'
    case _ => false
  }

  /** Parsing what a well-formed stub is written as gives that stub back. */
  lemma ParseStubText(st: ResourceStub)
    requires WellFormedStub(st)
    ensures ParseStub(StubText(st)) == Some(st)
  {
    if st.id.Some? {
      assert ("@" + st.id.value)[1..] == st.id.value;
    }
  }

  /** One parsed `name quantity` pair: the stub (None for a lone `@`) and the quantity. */
  datatype StubQuantity = StubQuantity(stub: Option<ResourceStub>, quantity: real)

  /**
   * `parse_resources(res_list)`: the items taken two at a time. A count that
   * `float` rejects raises ValueError (`toNumber` gives None); a name left
   * without a count makes the whole result empty.
   */
  method ParseResources(items: seq<string>, toNumber: string -> Option<real>) returns (r: Result<seq<StubQuantity>, string>)
    ensures r.Failure? <==> exists k | 0 <= k && 2 * k + 1 < |items| :: toNumber(items[2 * k + 1]).None?
    ensures r.Failure? ==> r.error == "ValueError"
    ensures r.Success? && |items| % 2 == 1 ==> r.value == []
    ensures r.Success? && |items| % 2 == 0 ==>
      |r.value| == |items| / 2 &&
      forall k | 0 <= k < |items| / 2 ::
        r.value[k] == StubQuantity(ParseStub(items[2 * k]), toNumber(items[2 * k + 1]).value)
  {
    var results: seq<StubQuantity> := [];
    var i := 0;
    while i < |items|
      invariant 0 <= i <= |items| && i % 2 == 0 && |results| == i / 2
      invariant forall k | 0 <= k && 2 * k + 1 < i :: toNumber(items[2 * k + 1]).Some?
      invariant forall k | 0 <= k < |results| ::
        results[k] == StubQuantity(ParseStub(items[2 * k]), toNumber(items[2 * k + 1]).value)
    {
      var res := items[i];
      if i + 1 >= |items| {
        assert forall k | 0 <= k && 2 * k + 1 < |items| :: 2 * k + 1 < i;
        return Success([]);
      }
      var count := items[i + 1];
      var stub := ParseStub(res);
      var quantity := toNumber(count);
      if quantity.None? {
        assert 2 * (i / 2) + 1 == i + 1;
        return Failure("ValueError");
      }
      results := results + [StubQuantity(stub, quantity.value)];
      i := i + 2;
    }
    assert forall k | 0 <= k && 2 * k + 1 < |items| :: 2 * k + 1 < i;
    return Success(results);
  }

  /** `str.split(sep)`: the pieces between the separators, at least one. */
  function Split(s: string, sep: char): (r: seq<string>)
    ensures |r| >= 1
    ensures forall k | 0 <= k < |r| :: sep !in r[k]
  {
    if s == [] then [""]
    else
      var rest := Split(s[1..], sep);
      if s[0] == sep then [""] + rest else [[s[0]] + rest[0]] + rest[1..]
  }

  /** The pieces joined back with `sep` between them. */
  function Join(pieces: seq<string>, sep: char): string
    requires |pieces| >= 1
  {
    if |pieces| == 1 then pieces[0] else pieces[0] + [sep] + Join(pieces[1..], sep)
  }

  /** Splitting and joining again gives the original string. */
  lemma {:induction false} SplitJoin(s: string, sep: char)
    ensures Join(Split(s, sep), sep) == s
  {
    if s != [] {
      var tail := s[1..];
      SplitJoin(tail, sep);
      var rest := Split(tail, sep);
      var pieces := Split(s, sep);
      if s[0] == sep {
        assert pieces == [""] + rest;
        assert pieces[1..] == rest;
        assert Join(pieces, sep) == [sep] + Join(rest, sep);
      } else {
        assert pieces == [[s[0]] + rest[0]] + rest[1..];
        JoinFirst(rest, [s[0]], sep);
      }
      assert [s[0]] + tail == s;
    }
  }

  /** Prefixing the first piece prefixes the joined string. */
  lemma JoinFirst(pieces: seq<string>, prefix: string, sep: char)
    requires |pieces| >= 1
    ensures Join([prefix + pieces[0]] + pieces[1..], sep) == prefix + Join(pieces, sep)
  {
    var moved := [prefix + pieces[0]] + pieces[1..];
    if |pieces| > 1 {
      assert moved[1..] == pieces[1..];
    }
  }

  /**
   * The `k`-th field of a cycle time read right to left (0 seconds, 1
   * minutes, 2 hours): 0 when missing, None when `float` rejects it.
   */
  function Field(parts: seq<string>, k: nat, toNumber: string -> Option<real>): (r: Option<real>)
    ensures k >= |parts| ==> r == Some(0.0)
    ensures k < |parts| ==> r == toNumber(parts[|parts| - 1 - k])
  {
    if k < |parts| then toNumber(parts[|parts| - 1 - k]) else Some(0.0)
  }

  /**
   * The cycle time in seconds the pieces of `-t` describe, as
   * `timedelta(hours=h, minutes=m, seconds=s)` counts it; ValueError when
   * one of the last three pieces is not a number.
   */
  function CycleSeconds(parts: seq<string>, toNumber: string -> Option<real>): (r: Result<real, string>)
    ensures r.Failure? <==> exists k | 0 <= k < 3 :: Field(parts, k, toNumber).None?
    ensures r.Failure? ==> r.error == "ValueError"
  {
    var secs := Field(parts, 0, toNumber);
    var mins := Field(parts, 1, toNumber);
    var hours := Field(parts, 2, toNumber);
    if secs.None? || mins.None? || hours.None? then Failure("ValueError")
    else Success(hours.value * 3600.0 + mins.value * 60.0 + secs.value)
  }

  /** Pieces in front of the last three are never read. */
  lemma CycleSecondsIgnoresExtra(extra: seq<string>, parts: seq<string>, toNumber: string -> Option<real>)
    requires |parts| >= 3
    ensures CycleSeconds(extra + parts, toNumber) == CycleSeconds(parts, toNumber)
  {
    var all := extra + parts;
    forall k | 0 <= k < 3
      ensures Field(all, k, toNumber) == Field(parts, k, toNumber)
    {
      assert all[|all| - 1 - k] == parts[|parts| - 1 - k];
    }
  }

  /**
   * The cycle-time loop of `AddRecipeCommand.execute`: the `-t` value split
   * on `:`, reversed, and read as seconds, minutes and hours until three are read.
   */
  method ParseCycleTime(spec: string, toNumber: string -> Option<real>) returns (r: Result<real, string>)
    ensures r == CycleSeconds(Split(spec, ':'), toNumber)
  {
    var parts := Split(spec, ':');
    var reversed := Reverse(parts);
    var secs, mins, hours := 0.0, 0.0, 0.0;
    var i := 0;
    while i < |reversed|
      invariant 0 <= i <= |reversed| && i <= 3
      invariant forall k | 0 <= k < i :: Field(parts, k, toNumber).Some?
      invariant secs == (if i > 0 then Field(parts, 0, toNumber).value else 0.0)
      invariant mins == (if i > 1 then Field(parts, 1, toNumber).value else 0.0)
      invariant hours == (if i > 2 then Field(parts, 2, toNumber).value else 0.0)
    {
      if i >= 3 {
        break;
      }
      var value := toNumber(reversed[i]);
      if value.None? {
        return Failure("ValueError");
      }
      if i == 0 {
        secs := value.value;
      } else if i == 1 {
        mins := value.value;
      } else {
        hours := value.value;
      }
      i := i + 1;
    }
    return Success(hours * 3600.0 + mins * 60.0 + secs);
  }

  /** The pieces in reverse order. */
  function Reverse<T>(s: seq<T>): (r: seq<T>)
    ensures |r| == |s| && forall k | 0 <= k < |s| :: r[k] == s[|s| - 1 - k]
  {
    if s == [] then [] else Reverse(s[1..]) + [s[0]]
  }

  /** The characters `str.strip()` removes, in ASCII: space, 0x09-0x0D and the separators 0x1C-0x1F. */
  predicate IsSpace(c: char)
  {
    c == ' ' || ('\t' <= c <= '\r') || ('\U{001C}' <= c <= '\U{001F}')
  }

  /** `len(s.strip()) == 0`: nothing but whitespace. */
  predicate Blank(s: string)
  {
    forall i | 0 <= i < |s| :: IsSpace(s[i])
  }

  /**
   * The id `add-recipe` uses: an explicit id that is not blank is kept,
   * otherwise the id generated from the name.
   */
  function RecipeIdFor(id: Option<string>, name: string): (r: string)
    ensures id.Some? && !Blank(id.value) ==> r == id.value
    ensures id.None? || Blank(id.value) ==> r == GenerateId(name)
  {
    if id.None? || Blank(id.value) then GenerateId(name) else id.value
  }

  /**
   * The id `add-resource` uses: an empty id is replaced by the generated one;
   * unlike `add-recipe`, a blank but nonempty id is kept.
   */
  function ResourceIdFor(id: string, name: string): (r: string)
    ensures id != [] ==> r == id
    ensures id == [] ==> r == GenerateId(name)
  {
    if |id| == 0 then GenerateId(name) else id
  }

  /** A defaulted id is never blank when the name has a non-space character. */
  lemma DefaultIdNotBlank(id: Option<string>, name: string)
    requires exists i | 0 <= i < |name| :: !IsSpace(name[i]) && name[i] != ' '
    ensures !Blank(RecipeIdFor(id, name))
  {
    var i :| 0 <= i < |name| && !IsSpace(name[i]) && name[i] != ' ';
    if id.None? || Blank(id.value) {
      var c := LowerChar(name[i]);
      assert GenerateId(name)[i] == c;
      assert !IsSpace(c);
    }
  }

  /** A blank id: `add-recipe` replaces it, `add-resource` keeps it. */
  lemma BlankIdsDiffer(name: string)
    ensures RecipeIdFor(Some(" "), name) == GenerateId(name)
    ensures ResourceIdFor(" ", name) == " "
  {
    assert Blank(" ");
  }

  /** The three commands and the names they answer to. */
  datatype Command = AddResource | AddRecipe | FindRecipe

  function CommandName(c: Command): string
  {
    match c
    case AddResource => "add-resource"
    case AddRecipe => "add-recipe"
    case FindRecipe => "find-recipe"
  }

  /** `Cli`: the commands it knows. */
  class Cli {
    const commands: seq<Command>

    constructor (commands: seq<Command>)
      ensures this.commands == commands
    {
      this.commands := commands;
    }

    /** `get_command(name)`: the first command answering to `name`, or None. */
    method GetCommand(name: string) returns (r: Option<Command>)
      ensures r.None? <==> forall i | 0 <= i < |commands| :: CommandName(commands[i]) != name
      ensures r.Some? ==>
        exists i | 0 <= i < |commands| ::
          commands[i] == r.value && CommandName(r.value) == name &&
          forall j | 0 <= j < i :: CommandName(commands[j]) != name
    {
      var i := 0;
      while i < |commands|
        invariant 0 <= i <= |commands|
        invariant forall j | 0 <= j < i :: CommandName(commands[j]) != name
      {
        if CommandName(commands[i]) == name {
          return Some(commands[i]);
        }
        i := i + 1;
      }
      return None;
    }
  }
}
