/**
 * The plugin and theme records the bulk-update task list passes around.
 * A plugin record carries the update status the store reports for it
 * (`getStatusForPlugin` returns an object with a `status` or `false`); a
 * theme record carries none.
 */
module UpdateItems {
  import opened Wrappers

  /** Values of the `type` field. */
  const PLUGIN: string := "plugin"
  const THEME: string := "theme"

  /** Values of `updateStatus.status` that the task list reacts to. */
  const IN_PROGRESS: string := "inProgress"
  const ERROR: string := "error"
  const COMPLETED: string := "completed"

  /**
   * One plugin or theme with a pending update. `updateStatus` is `None`
   * where the source holds `false` (no status known) and `Some(s)` where it
   * holds `{ status: s }`.
   */
  datatype Item = Item(
    slug: string,
    name: string,
    version: string,
    kind: string,
    updateStatus: Option<string>)

  /** The `slug` iteratee of `unionBy` and `find`. */
  function SlugOf(item: Item): string { item.slug }
}
