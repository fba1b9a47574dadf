/** The request and response shapes of the two generative-AI flows
    (emergency detection and multilingual health Q&A) and of the hospital
    records the page carries. The flows themselves are external: the model
    only sees whether a call resolved and with what value. */
module Flows {
  import opened Common

  /** Input of the emergency-detection flow. */
  datatype DetectionRequest = DetectionRequest(
    symptoms: string,
    language: Option<string>,
    location: Option<string>)

  /** Output of the emergency-detection flow. The confidence is described to
      the model as lying between 0 and 1, but nothing checks that range. */
  datatype Assessment = Assessment(
    isEmergency: bool,
    emergencyType: Option<string>,
    reason: string,
    confidenceLevel: real)

  /** Input of the health Q&A flow. */
  datatype QaRequest = QaRequest(question: string, language: Option<string>)

  /** Output of the health Q&A flow. */
  datatype QaAnswer = QaAnswer(answer: string)

  /** A nearby care facility as listed in the emergency dialog. */
  datatype Facility = Facility(name: string, address: string, phone: string, distance: string)
}
