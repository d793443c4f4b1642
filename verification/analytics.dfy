/** The payloads the watcher hands to the analytics sink. */
module Analytics {

  /** `analytics.track({name, message})` */
  datatype Track = Track(name: string, message: string)

  /** `analytics.trackTiming({category, variable, label, value})`; `label` is a keyword in Dafny. */
  datatype Timing = Timing(category: string, variable: string, timingLabel: string, value: nat)

  /** `analytics.trackError({description})` */
  datatype TrackedError = TrackedError(description: string)
}
