/** The exchange names every service reads from the environment, with their defaults. */
module Config {
  import opened Js

  /** `process.env.RABBITMQ_EXCHANGE_EVENTS || "events.topic"` */
  function EventsExchange(env: Env): (name: string)
    ensures "RABBITMQ_EXCHANGE_EVENTS" !in env ==> name == "events.topic"
    ensures "RABBITMQ_EXCHANGE_EVENTS" in env && env["RABBITMQ_EXCHANGE_EVENTS"] != "" ==>
              name == env["RABBITMQ_EXCHANGE_EVENTS"]
    ensures "RABBITMQ_EXCHANGE_EVENTS" in env && env["RABBITMQ_EXCHANGE_EVENTS"] == "" ==>
              name == "events.topic"
    ensures name != ""
  {
    EnvOrDefault(env, "RABBITMQ_EXCHANGE_EVENTS", "events.topic")
  }

  /** `process.env.RABBITMQ_EXCHANGE_DLX || "dlx.direct"` */
  function DlxExchange(env: Env): (name: string)
    ensures "RABBITMQ_EXCHANGE_DLX" !in env ==> name == "dlx.direct"
    ensures "RABBITMQ_EXCHANGE_DLX" in env && env["RABBITMQ_EXCHANGE_DLX"] != "" ==>
              name == env["RABBITMQ_EXCHANGE_DLX"]
    ensures "RABBITMQ_EXCHANGE_DLX" in env && env["RABBITMQ_EXCHANGE_DLX"] == "" ==>
              name == "dlx.direct"
    ensures name != ""
  {
    EnvOrDefault(env, "RABBITMQ_EXCHANGE_DLX", "dlx.direct")
  }
}
