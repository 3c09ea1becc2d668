/** The keyboard codes the core distinguishes (winit's `KeyCode` and `PhysicalKey`). */
module Keys {
  datatype KeyCode = KeyW | KeyA | KeyS | KeyD | KeyJ | KeyK | OtherKey(code: nat)

  datatype PhysicalKey = Code(code: KeyCode) | Unidentified(native: nat)

  /** The four keys the camera knows how to move for. */
  predicate IsMovementKey(k: KeyCode) {
    k == KeyW || k == KeyA || k == KeyS || k == KeyD
  }
}
