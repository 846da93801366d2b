/** The serial link to the LED controller: the command words the scripts
    write, and how a send behaves with and without the link. */
module Notifications {
  import opened Outcomes

  const Complete: string := "COMPLETE"
  const Waiting: string := "WAITING"
  const Finished: string := "FINISHED"

  /** The recipes the LED controller has a start animation for. */
  const StartCodes: map<string, string> := map[
    "AMF" := "ADIOS",
    "Long Island Ice Tea" := "LONGISLAND",
    "Peach Crush" := "PEACHCRUSH",
    "Midori Sour" := "MIDORISOUR"
  ]

  /** The if/elif chain at the top of `make_cocktail`: the four named recipes
      have a start code, every other name has none, and no start code can be
      mistaken for one of the lifecycle words. */
  function StartCode(recipe: string): (code: Option<string>)
    ensures code.Some? <==> recipe in StartCodes
    ensures code.Some? ==> code.value == StartCodes[recipe]
    ensures code.Some? ==> code.value != Complete && code.value != Waiting && code.value != Finished
  {
    if recipe == "AMF" then Some("ADIOS")
    else if recipe == "Long Island Ice Tea" then Some("LONGISLAND")
    else if recipe == "Peach Crush" then Some("PEACHCRUSH")
    else if recipe == "Midori Sour" then Some("MIDORISOUR")
    else None
  }

  /** The start code as the list of commands it contributes to the log. */
  function StartCodeCommands(recipe: string): seq<string> {
    match StartCode(recipe)
    case Some(code) => [code]
    case None => []
  }

  /** `send_command_to_arduino`: with a link the command is appended to the
      log; without one nothing is written. The log only ever grows. */
  function Send(linked: bool, log: seq<string>, command: string): (log': seq<string>)
    ensures log <= log'
    ensures |log'| == |log| + (if linked then 1 else 0)
    ensures linked ==> log'[|log|] == command
  {
    if linked then log + [command] else log
  }
}
