/**
 * The hero terminal: it types its own login command, prints the authentication banner, then
 * echoes each entered command with the reply from the terminal command table.
 */
module Terminal {
  import opened Common
  import opened Ascii
  import opened Data

  /** The three styles a terminal line is drawn in. */
  datatype LineKind = CommandLine | ResponseLine | InfoLine

  datatype Line = Line(text: string, kind: LineKind)

  /** The command the terminal types by itself on load. */
  const AutoCommand := "access Lazarus_portfolio --verify"

  const InitialOutput: seq<Line> := [
    Line("Neural Interface v1.0.0 (Lazarus System)", InfoLine),
    Line("Establishing secure connection...", InfoLine),
    Line("Connection established. Authenticate to proceed.", ResponseLine)
  ]

  /** The four lines appended 500 ms after the automatic command is typed out. */
  const AuthenticationLines: seq<Line> := [
    Line("$ " + AutoCommand, CommandLine),
    Line("Access granted. Welcome to the Lazarus Portfolio.", ResponseLine),
    Line("Loading neural interface...", InfoLine),
    Line("System initialized. You may now explore the portfolio.", ResponseLine)
  ]

  /** The two lines an entered command adds: its echo and the table's reply. */
  function Exchange(command: string): (r: seq<Line>)
    ensures |r| == 2 && r[0].kind == CommandLine && r[1].kind == ResponseLine
    ensures |r[0].text| == |command| + 2 && r[0].text[..2] == "$ " && r[0].text[2..] == command
    ensures r[1].text == TerminalResponse(command)
  {
    [Line("$ " + command, CommandLine), Line(TerminalResponse(command), ResponseLine)]
  }

  class Terminal {
    var output: seq<Line>
    var inputValue: string
    var typedText: string
    var isTyping: bool
    /** Position of the typing interval's closure variable `index`. */
    var index: nat
    /** The 500 ms authentication timeout has been scheduled and has not yet fired. */
    var completionPending: bool

    ghost predicate Valid()
      reads this
    {
      && index <= |AutoCommand|
      && typedText == AutoCommand[..index]
      && (isTyping ==> !completionPending)
    }

    /** On mount: the banner, an empty input, and the automatic command about to be typed. */
    constructor ()
      ensures Valid()
      ensures output == InitialOutput && inputValue == "" && typedText == "" && isTyping && !completionPending
    {
      output := InitialOutput;
      inputValue := "";
      typedText := "";
      isTyping := true;
      index := 0;
      completionPending := false;
    }

    /** One 100 ms tick of the auto-typing interval. */
    method AutoTypeTick()
      requires Valid() && isTyping
      modifies this
      ensures Valid()
      ensures output == old(output) && inputValue == old(inputValue)
      ensures old(index) < |AutoCommand| ==> isTyping && index == old(index) + 1 && !completionPending
      ensures old(index) == |AutoCommand| ==> !isTyping && completionPending && typedText == AutoCommand
    {
      if index < |AutoCommand| {
        typedText := typedText + [AutoCommand[index]];
        index := index + 1;
        assert typedText == AutoCommand[..index];
      } else {
        isTyping := false;
        completionPending := true;
        assert AutoCommand[..index] == AutoCommand;
      }
    }

    /** The authentication timeout fires: the four fixed lines are appended. */
    method CompleteAuthentication()
      requires Valid() && completionPending
      modifies this
      ensures Valid()
      ensures output == old(output) + AuthenticationLines && !completionPending
      ensures inputValue == old(inputValue) && isTyping == old(isTyping) && typedText == old(typedText)
    {
      output := output + AuthenticationLines;
      completionPending := false;
    }

    /** The input's change handler. */
    method Input(value: string)
      requires Valid()
      modifies this
      ensures Valid()
      ensures inputValue == value && output == old(output) && isTyping == old(isTyping)
      ensures typedText == old(typedText) && index == old(index) && completionPending == old(completionPending)
    {
      inputValue := value;
    }

    /**
     * `handleKeyDown`: Enter with a non-blank input echoes the trimmed command, appends its
     * reply, reports the command to the page and clears the input; any other key, or a blank
     * input, changes nothing.
     */
    method KeyDown(key: string) returns (executed: Option<string>)
      requires Valid()
      modifies this
      ensures Valid()
      ensures isTyping == old(isTyping) && typedText == old(typedText) && completionPending == old(completionPending)
      ensures executed.Some? <==> key == "Enter" && !IsBlank(old(inputValue))
      ensures executed.None? ==> output == old(output) && inputValue == old(inputValue)
      ensures executed.Some? ==>
        && executed.value == Trim(old(inputValue)) && executed.value != []
        && Trim(executed.value) == executed.value
        && output == old(output) + Exchange(executed.value)
        && inputValue == ""
    {
      executed := None;
      if key == "Enter" {
        var command := Trim(inputValue);
        if command != [] {
          output := output + [Line("$ " + command, CommandLine)];
          var response := TerminalResponse(command);
          output := output + [Line(response, ResponseLine)];
          TrimIdempotent(inputValue);
          inputValue := "";
          executed := Some(command);
        }
      }
    }
  }

  /**
   * Padding around what is typed changes neither the command passed on nor its reply, and a
   * recognised command gets the reply it would get untrimmed.
   */
  lemma EnteredCommandIgnoresPadding(p: string, typed: string, q: string)
    requires AllSpace(p) && AllSpace(q)
    ensures Trim(p + typed + q) == Trim(typed)
    ensures TerminalRecognises(Trim(typed)) <==> TerminalRecognises(typed)
    ensures TerminalRecognises(typed) ==> TerminalResponse(Trim(p + typed + q)) == TerminalResponse(typed)
  {
    TrimIgnoresPadding(p, typed, q);
    NormalizeOfTrim(typed);
    if TerminalRecognises(typed) {
      TerminalReplyDependsOnNormalForm(typed, Trim(typed));
    }
  }
}
