module Locks {
  import opened Options

  /** `sync.RWMutex`: a writer that has called Lock keeps new readers out, and enters once the readers have left. */
  datatype RWMutex<W> = RWMutex(writer: Option<W>, readers: set<nat>)
}
