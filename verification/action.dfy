/**
 * The `Action` bean of the model package: a named, described command
 * template with a result type, and the list of placeholder names that the
 * template mentions.
 */
module CurlyModel {
  import opened Wrappers
  import VariablePattern

  /** How the response body is to be read. */
  datatype ResultType = Html | Json | Plain

  /**
   * The names a template's `${name}` placeholders mention, in order of
   * appearance and with repetitions: nothing for a null or empty template,
   * otherwise the group texts of the matches a matcher visits from the start.
   */
  function VariableNames(command: Option<string>): seq<string> {
    if command.Some? && command.value != [] then VariablePattern.Names(command.value, 0) else []
  }

  class Action {
    // Java Strings and the enum reference may be null; None stands for null.
    var name: Option<string>
    var description: Option<string>
    var command: Option<string>
    var resultType: Option<ResultType>

    /** A fresh action has no name, description or command, and reads its result as HTML. */
    constructor ()
      ensures name == None && description == None && command == None
      ensures GetResultType() == Some(Html)
    {
      name := None;
      description := None;
      command := None;
      resultType := Some(Html);
    }

    function GetResultType(): Option<ResultType>
      reads this
    {
      resultType
    }

    method SetResultType(resultType: Option<ResultType>)
      modifies this
      ensures GetResultType() == resultType
      ensures name == old(name) && description == old(description) && command == old(command)
    {
      this.resultType := resultType;
    }

    function GetName(): Option<string>
      reads this
    {
      name
    }

    method SetName(name: Option<string>)
      modifies this
      ensures GetName() == name && ToString() == name
      ensures description == old(description) && command == old(command) && resultType == old(resultType)
    {
      this.name := name;
    }

    function GetDescription(): Option<string>
      reads this
    {
      description
    }

    method SetDescription(description: Option<string>)
      modifies this
      ensures GetDescription() == description
      ensures name == old(name) && command == old(command) && resultType == old(resultType)
    {
      this.description := description;
    }

    function GetCommand(): Option<string>
      reads this
    {
      command
    }

    method SetCommand(command: Option<string>)
      modifies this
      ensures GetCommand() == command
      ensures name == old(name) && description == old(description) && resultType == old(resultType)
    {
      this.command := command;
    }

    /** An action displays as its name. */
    function ToString(): Option<string>
      reads this
    {
      GetName()
    }

    /**
     * Collects the group text of every match a matcher finds in the command,
     * appending one name per successful `find`. The method changes no field
     * (it has no modifies clause).
     */
    method GetVariableNames() returns (names: seq<string>)
      ensures command.None? || command.value == [] ==> names == []
      ensures names == VariableNames(command)
    {
      names := [];
      if command.Some? && command.value != [] {
        var s := command.value;
        var from := 0;
        var found := VariablePattern.Find(s, from);
        while found.Some?
          invariant from <= |s|
          invariant found == VariablePattern.Find(s, from)
          invariant names + VariablePattern.Names(s, from) == VariablePattern.Names(s, 0)
          decreases |s| - from
        {
          var m := found.value;
          var name := s[m.start + 2 .. m.close];
          assert VariablePattern.Names(s, from) == [name] + VariablePattern.Names(s, m.close + 1);
          names := names + [name];
          from := m.close + 1;
          found := VariablePattern.Find(s, from);
        }
      }
    }
  }
}
