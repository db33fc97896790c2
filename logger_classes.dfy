/**
 * `LoggerClasses` (older generation): the fixed, unmodifiable set of logger
 * class names the older matcher checks against.
 */
module LoggerClasses {
  import opened Wrappers

  /** Built once at class initialisation and then made unmodifiable: a constant. */
  const LoggerClassNames: set<string> := {
    "java.util.logging.Logger",
    "org.slf4j.Logger",
    "org.apache.commons.logging.Log",
    "org.apache.log4j.Logger"
  }

  /** `contains(className)`; `None` stands for a `null` argument, which was never added. */
  predicate Contains(className: Option<string>)
    ensures Contains(className) <==>
      (className.Some? &&
       (className.value == "java.util.logging.Logger" || className.value == "org.slf4j.Logger" ||
        className.value == "org.apache.commons.logging.Log" || className.value == "org.apache.log4j.Logger"))
  {
    className.Some? && className.value in LoggerClassNames
  }
}
