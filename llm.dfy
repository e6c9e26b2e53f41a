/** What the backends see of one call to the language model. */
module Llm {

  /** The outcome of asking the model one prompt. */
  datatype Reply =
    | Text(text: string)       // a reply with text
    | NoText                   // a reply whose `text` is `None`
    | Raised(message: string)  // the call raised; `message` is `str(e)`

  /** The message Python gives when `.strip()` is called on `None`. */
  const NoneStripMessage := "'NoneType' object has no attribute 'strip'"

  /** The message Python gives when `.lower()` is called on `None`. */
  const NoneLowerMessage := "'NoneType' object has no attribute 'lower'"
}
