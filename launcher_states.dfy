/**
 * The launcher's top-level visual state, as its state manager reports it.
 * The launcher only ever compares the current state with NORMAL and OVERVIEW;
 * every other named state (all apps, spring-loaded, background app, ...)
 * is modelled as an `Other` carrying its name.
 */
module LauncherStates {

  datatype LauncherState = Normal | Overview | Other(name: string)
}
