/** The values every component of the daemon exchanges: resource names, client
    ids, instants. */
module Types {

  datatype Option<+T> = None | Some(value: T)

  /** Server-assigned, never reused while the daemon runs. */
  type ClientId = nat

  /** Milliseconds on the engine's monotonic clock. */
  type Instant = nat

  type Index = i: int | 0 <= i < 256

  datatype InputClass = MouseClass | KeyboardClass | TouchClass

  datatype InputResource = Mouse(index: Index) | Keyboard(index: Index) | Touch(index: Index)

  datatype Resource = Drm(card: Index) | Fbdev | Input(input: InputResource)

  /** A display is what the application on screen holds. */
  predicate IsDisplay(r: Resource) {
    r.Drm? || r.Fbdev?
  }
}
