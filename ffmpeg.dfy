/**
  The fluent ffmpeg command the handler builds step by step: `ffmpeg()` or
  `ffmpeg(target)`, then `.input`, `.loop`, `.inputOptions`, `.outputOptions`
  and finally `.save(path)` (server/index.js, lines 46-47, 56, 62-76, 83-87, 96, 110).
  Each call updates the command in place; `.loop` and `.inputOptions` apply to
  the most recently added input.
 */
module Ffmpeg {
  import opened Wrappers
  import opened Assets
  import opened Jobs

  class Command {
    var inputs: seq<InputSpec>
    var outputOptions: seq<string>
    var output: Option<Path>

    /** `ffmpeg()`: a command with nothing in it. */
    constructor ()
      ensures inputs == [] && outputOptions == [] && output == None
    {
      inputs, outputOptions, output := [], [], None;
    }

    /** `ffmpeg(target)`: a command whose first input is `target`. */
    constructor WithInput(target: string)
      ensures inputs == [PlainInput(target)] && outputOptions == [] && output == None
    {
      inputs, outputOptions, output := [PlainInput(target)], [], None;
    }

    /** `.input(target)`: appends a new current input. */
    method Input(target: string)
      modifies this
      ensures inputs == old(inputs) + [PlainInput(target)]
      ensures outputOptions == old(outputOptions) && output == old(output)
    {
      inputs := inputs + [PlainInput(target)];
    }

    /** `.loop(n)`: marks the current input as looped (the library throws when
        there is no input yet). */
    method Loop(n: int)
      requires inputs != []
      modifies this
      ensures |inputs| == |old(inputs)|
      ensures inputs[..|inputs| - 1] == old(inputs)[..|inputs| - 1]
      ensures inputs[|inputs| - 1] == old(inputs)[|inputs| - 1].(loop := Some(n))
      ensures outputOptions == old(outputOptions) && output == old(output)
    {
      var last := |inputs| - 1;
      inputs := inputs[..last] + [inputs[last].(loop := Some(n))];
    }

    /** `.inputOptions(opts)`: adds options to the current input. */
    method InputOptions(opts: seq<string>)
      requires inputs != []
      modifies this
      ensures |inputs| == |old(inputs)|
      ensures inputs[..|inputs| - 1] == old(inputs)[..|inputs| - 1]
      ensures inputs[|inputs| - 1] == old(inputs)[|inputs| - 1].(options := old(inputs)[|inputs| - 1].options + opts)
      ensures outputOptions == old(outputOptions) && output == old(output)
    {
      var last := |inputs| - 1;
      inputs := inputs[..last] + [inputs[last].(options := inputs[last].options + opts)];
    }

    /** `.outputOptions(opts)`: appends output options, keeping their order. */
    method OutputOptions(opts: seq<string>)
      modifies this
      ensures outputOptions == old(outputOptions) + opts
      ensures inputs == old(inputs) && output == old(output)
    {
      outputOptions := outputOptions + opts;
    }

    /** `.save(path)`: fixes the output path; this is where the encode is submitted. */
    method Save(path: Path)
      modifies this
      ensures output == Some(path)
      ensures inputs == old(inputs) && outputOptions == old(outputOptions)
    {
      output := Some(path);
    }

    /** The job this command describes once it has been saved. */
    function Job(): JobDescriptor
      reads this
      requires output.Some?
    {
      JobDescriptor(inputs, outputOptions, output.value)
    }
  }
}
