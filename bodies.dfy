/** Request bodies the client builds without any fetch: the chatbot created
    by `create_chatbot` and the machine-learning job configurations of
    `train`, `feedback` and `cluster`. Parameters carry the values a caller
    passes; a parameter the caller omits takes the default the Python
    signature gives it, and `None` is `JNull`. */
module Bodies {
  import opened Values

  type Body = map<string, Json>

  // ---------------------------------------------------------------------
  // create_chatbot
  // ---------------------------------------------------------------------

  const DOUBTFUL_TEXT := "Sorry. I didn't get you.Could you rephrase that?"
  const WELCOME_TEXT := "Hey buddy! How can I help you?"
  const SEEOFF_TEXT := "Happy to help you.Will see you soon!"
  const FLOW_API_URL := "http://someurl.here/api/v1/api_path"

  /** The keys every chatbot body has. */
  const CHATBOT_KEYS: set<string> := {"name", "type", "basic_conversation", "social_webhooks", "facebook_recipient_id"}

  /** One question of the sample flow a new flow chatbot starts with. */
  function FlowQuestion(question: string, jsonKey: string, order: int): Json
  {
    JObject(map["question" := JStr(question), "responseType" := JStr("input_text"),
                "jsonKey" := JStr(jsonKey), "order" := JInt(order)])
  }

  /** The `flow_conversation` of a new flow chatbot. */
  function SampleFlow(): Json
  {
    JObject(map[
      "api_config" := JObject(map["url" := JStr(FLOW_API_URL)]),
      "questions" := JList([
        FlowQuestion("Hello, I'm flow based chatbot. May I know your name?", "name", 1),
        FlowQuestion("I can be useful for collecting information from user. Sometimes filling a long form can be tiresome, right?",
                     "boolean_value", 2),
        FlowQuestion("I can make that process quick and easy.", "process_info", 3)
      ])
    ])
  }

  /** The `order` of every question of a flow, in list order (a question
      without an integer `order` gives 0). */
  function QuestionOrders(flow: Json): seq<int>
  {
    match Get(flow, "questions")
    case Some(JList(qs)) =>
      seq(|qs|, i requires 0 <= i < |qs| =>
        match Get(qs[i], "order") case Some(JInt(n)) => n case _ => 0)
    case _ => []
  }

  /** `create_chatbot`'s body: the common part, plus the sample flow for a
      'flow' bot or empty entities and intents for a 'default' bot. */
  function ChatbotBody(name: Json, kind: Json): (body: Body)
    ensures CHATBOT_KEYS <= body.Keys
    ensures body["name"] == name && body["type"] == kind
    ensures body["social_webhooks"] == JObject(map[]) && body["facebook_recipient_id"] == JStr("")
    ensures Get(body["basic_conversation"], "doubtful_text") == Some(JStr(DOUBTFUL_TEXT))
    ensures Get(body["basic_conversation"], "welcome_text") == Some(JStr(WELCOME_TEXT))
    ensures Get(body["basic_conversation"], "seeoff_text") == Some(JStr(SEEOFF_TEXT))
    ensures "flow_conversation" in body <==> kind == JStr("flow")
    ensures "entities" in body <==> kind == JStr("default")
    ensures "intents" in body <==> kind == JStr("default")
    ensures kind == JStr("flow") ==> body.Keys == CHATBOT_KEYS + {"flow_conversation"}
    ensures kind == JStr("flow") ==> QuestionOrders(body["flow_conversation"]) == [1, 2, 3]
    ensures kind == JStr("default") ==>
      body.Keys == CHATBOT_KEYS + {"entities", "intents"} && body["entities"] == JList([]) && body["intents"] == JList([])
    ensures kind != JStr("flow") && kind != JStr("default") ==> body.Keys == CHATBOT_KEYS
  {
    var common := map[
      "name" := name,
      "type" := kind,
      "basic_conversation" := JObject(map[
        "doubtful_text" := JStr(DOUBTFUL_TEXT),
        "welcome_text" := JStr(WELCOME_TEXT),
        "seeoff_text" := JStr(SEEOFF_TEXT)
      ]),
      "social_webhooks" := JObject(map[]),
      "facebook_recipient_id" := JStr("")
    ];
    if kind == JStr("flow") then
      common["flow_conversation" := SampleFlow()]
    else if kind == JStr("default") then
      common["entities" := JList([])]["intents" := JList([])]
    else
      common
  }

  // ---------------------------------------------------------------------
  // train, feedback, cluster
  // ---------------------------------------------------------------------

  /** `if value is None: value = default`. */
  function OrDefault(value: Json, default: Json): Json
  {
    if value == JNull then default else value
  }

  const NO_PARAMS: Json := JObject(map[])

  /** The `config` object of a body, or the empty map. */
  function Config(body: Body): map<string, Json>
  {
    if "config" in body && body["config"].JObject? then body["config"].fields else map[]
  }

  /** The model is named after the algorithm unless a name is supplied, and
      the extra parameters default to the empty dict; a supplied value is
      used as is. */
  ghost predicate NameAndParams(config: map<string, Json>, algorithm: Json, modelName: Json, params: Json)
  {
    && "name" in config && "params" in config && "algorithm" in config
    && config["algorithm"] == algorithm
    && (modelName == JNull ==> config["name"] == algorithm)
    && (modelName != JNull ==> config["name"] == modelName)
    && (params == JNull ==> config["params"] == NO_PARAMS)
    && (params != JNull ==> config["params"] == params)
  }

  /** `train`'s body. `service` only selects the URL and is not part of it. */
  function TrainBody(algorithm: Json, datasetUrl: Json, labelColumn: Json, features: Json,
                     modelName: Json := JNull, lib: Json := JStr("weka"), trainPercentage: Json := JInt(80),
                     saveModel: Json := JBool(true), params: Json := JNull): (body: Body)
    ensures body.Keys == {"library", "task", "config"}
    ensures body["library"] == lib && body["task"] == JStr("train")
    ensures Config(body).Keys ==
      {"name", "algorithm", "datasetUrl", "label", "trainPercentage", "features", "saveModel", "params"}
    ensures NameAndParams(Config(body), algorithm, modelName, params)
    ensures Config(body)["datasetUrl"] == datasetUrl && Config(body)["label"] == labelColumn
    ensures Config(body)["trainPercentage"] == trainPercentage && Config(body)["features"] == features
    ensures Config(body)["saveModel"] == saveModel
  {
    map[
      "library" := lib,
      "task" := JStr("train"),
      "config" := JObject(map[
        "name" := OrDefault(modelName, algorithm),
        "algorithm" := algorithm,
        "datasetUrl" := datasetUrl,
        "label" := labelColumn,
        "trainPercentage" := trainPercentage,
        "features" := features,
        "saveModel" := saveModel,
        "params" := OrDefault(params, NO_PARAMS)
      ])
    ]
  }

  /** `feedback`'s body. */
  function FeedbackBody(service: Json, algorithm: Json, trainData: Json, feedbackData: Json, jobId: Json,
                        modelUrl: Json, labelColumn: Json, features: Json,
                        lib: Json := JStr("weka"), modelName: Json := JNull, splitPerc: Json := JInt(80),
                        saveModel: Json := JBool(true), params: Json := JNull): (body: Body)
    ensures body.Keys == {"library", "service", "task", "config"}
    ensures body["library"] == lib && body["service"] == service && body["task"] == JStr("FEEDBACK")
    ensures Config(body).Keys ==
      {"jobId", "name", "algorithm", "datasetUrl", "feedbackDatasetUrl", "modelUrl", "label",
       "trainPercentage", "features", "saveModel", "params"}
    ensures NameAndParams(Config(body), algorithm, modelName, params)
    ensures Config(body)["jobId"] == jobId && Config(body)["modelUrl"] == modelUrl
    ensures Config(body)["datasetUrl"] == trainData && Config(body)["feedbackDatasetUrl"] == feedbackData
    ensures Config(body)["label"] == labelColumn && Config(body)["features"] == features
    ensures Config(body)["trainPercentage"] == splitPerc && Config(body)["saveModel"] == saveModel
  {
    map[
      "library" := lib,
      "service" := service,
      "task" := JStr("FEEDBACK"),
      "config" := JObject(map[
        "jobId" := jobId,
        "name" := OrDefault(modelName, algorithm),
        "algorithm" := algorithm,
        "datasetUrl" := trainData,
        "feedbackDatasetUrl" := feedbackData,
        "modelUrl" := modelUrl,
        "label" := labelColumn,
        "trainPercentage" := splitPerc,
        "features" := features,
        "saveModel" := saveModel,
        "params" := OrDefault(params, NO_PARAMS)
      ])
    ]
  }

  /** `cluster`'s body; the number of clusters goes through `int(...)`,
      the identity on the integers modelled here, and `epsilon` is fixed. */
  function ClusterBody(service: Json, algorithm: Json, datasetUrl: Json, features: Json,
                       lib: Json := JStr("weka"), numberOfClusters: int := 2, modelName: Json := JNull,
                       saveModel: Json := JBool(true), params: Json := JNull): (body: Body)
    ensures body.Keys == {"library", "task", "service", "config"}
    ensures body["library"] == lib && body["service"] == service && body["task"] == JStr("CLUSTER")
    ensures Config(body).Keys ==
      {"name", "algorithm", "datasetUrl", "numOfClusters", "epsilon", "features", "saveModel", "params"}
    ensures NameAndParams(Config(body), algorithm, modelName, params)
    ensures Config(body)["numOfClusters"] == JInt(numberOfClusters) && Config(body)["epsilon"] == JReal(0.1)
    ensures Config(body)["datasetUrl"] == datasetUrl && Config(body)["features"] == features
    ensures Config(body)["saveModel"] == saveModel
  {
    map[
      "library" := lib,
      "task" := JStr("CLUSTER"),
      "service" := service,
      "config" := JObject(map[
        "name" := OrDefault(modelName, algorithm),
        "algorithm" := algorithm,
        "datasetUrl" := datasetUrl,
        "numOfClusters" := JInt(numberOfClusters),
        "epsilon" := JReal(0.1),
        "features" := features,
        "saveModel" := saveModel,
        "params" := OrDefault(params, NO_PARAMS)
      ])
    ]
  }

  /** Omitting `model_name` is the same as naming the model after the
      algorithm, and omitting `params` the same as passing `{}`. */
  lemma TrainDefaultsAreExplicit(algorithm: Json, url: Json, labelColumn: Json, features: Json)
    ensures TrainBody(algorithm, url, labelColumn, features) ==
            TrainBody(algorithm, url, labelColumn, features, modelName := algorithm, params := NO_PARAMS)
  {
  }

  lemma FeedbackDefaultsAreExplicit(service: Json, algorithm: Json, url: Json, feedbackData: Json, jobId: Json,
                                    modelUrl: Json, labelColumn: Json, features: Json)
    ensures FeedbackBody(service, algorithm, url, feedbackData, jobId, modelUrl, labelColumn, features) ==
            FeedbackBody(service, algorithm, url, feedbackData, jobId, modelUrl, labelColumn, features,
                         modelName := algorithm, params := NO_PARAMS)
  {
  }

  lemma ClusterDefaultsAreExplicit(service: Json, algorithm: Json, url: Json, features: Json)
    ensures ClusterBody(service, algorithm, url, features) ==
            ClusterBody(service, algorithm, url, features, modelName := algorithm, params := NO_PARAMS)
  {
  }

  /** The three job builders agree on the model name, algorithm, features,
      save flag and extra parameters they put in the configuration. */
  lemma JobBuildersAgree(service: Json, algorithm: Json, url: Json, labelColumn: Json, features: Json,
                         feedbackData: Json, jobId: Json, modelUrl: Json, lib: Json,
                         modelName: Json, saveModel: Json, params: Json)
    ensures var t := Config(TrainBody(algorithm, url, labelColumn, features, modelName := modelName, lib := lib,
                                      saveModel := saveModel, params := params));
            var f := Config(FeedbackBody(service, algorithm, url, feedbackData, jobId, modelUrl, labelColumn, features,
                                         lib := lib, modelName := modelName, saveModel := saveModel, params := params));
            var c := Config(ClusterBody(service, algorithm, url, features, lib := lib, modelName := modelName,
                                        saveModel := saveModel, params := params));
            forall key :: key in {"name", "algorithm", "features", "saveModel", "params", "datasetUrl"} ==>
              key in t && key in f && key in c && t[key] == f[key] == c[key]
  {
  }
}
