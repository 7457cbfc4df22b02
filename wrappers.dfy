/** Small helper datatypes shared by the model. */
module Wrappers {

  /** A value that may be absent: stands for a C# reference that may be null,
      or for a dictionary lookup that may miss. */
  datatype Option<+T> = None | Some(value: T)
}

/** What the controller writes to the Unity console with `Debug.LogError`.
    Only the subject of each report is kept, not its wording. */
module Diagnostics {

  datatype Report =
    | MissingBlendShape(name: string)   // a viseme the sequencer needs is not a blend shape of the mesh
    | WwwError(error: string)           // a request of the fetch chain came back with an error
}
