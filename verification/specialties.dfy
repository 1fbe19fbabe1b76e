/** The four specialist agents: their dictionary keys, display names and
    keyword lists, exactly as the agent classes hard-code them. */
module Specialties {
  import opened Wrappers

  datatype Specialty = Cardiology | Psychology | Pulmonology | General

  /** The key under which the router stores each agent. */
  function Key(s: Specialty): string {
    match s
    case Cardiology => "cardiology"
    case Psychology => "psychology"
    case Pulmonology => "pulmonology"
    case General => "general"
  }

  /** The agent's `specialty` attribute, which history entries record. */
  function Name(s: Specialty): string {
    match s
    case Cardiology => "Cardiology"
    case Psychology => "Psychology/Mental Health"
    case Pulmonology => "Pulmonology"
    case General => "General Medicine"
  }

  /** The router's dictionary order; every key but the last is scored. */
  const RouterOrder: seq<Specialty> := [Cardiology, Psychology, Pulmonology, General]

  /** The specialties scored against a report, in dictionary order. */
  const Scored: seq<Specialty> := [Cardiology, Psychology, Pulmonology]

  /** `get_specialty_keywords` of each agent; no list is empty. */
  function Keywords(s: Specialty): (ks: seq<string>)
    ensures |ks| > 0
  {
    match s
    case Cardiology =>
      [ "heart", "cardiac", "cardiovascular", "coronary", "artery", "blood pressure",
      "hypertension", "cholesterol", "ECG", "EKG", "echocardiogram", "chest pain",
      "palpitations", "shortness of breath", "angina", "myocardial", "infarction",
      "stroke", "atherosclerosis", "valve", "rhythm", "arrhythmia", "tachycardia",
      "bradycardia", "murmur", "lipid", "triglycerides", "HDL", "LDL" ]
    case Psychology =>
      [ "depression", "anxiety", "stress", "mood", "mental", "psychological",
      "sleep", "insomnia", "fatigue", "cognitive", "memory", "concentration",
      "panic", "phobia", "trauma", "PTSD", "bipolar", "psychosis", "therapy",
      "counseling", "psychiatric", "antidepressant", "anxiolytic", "behavior",
      "emotional", "social", "isolation", "suicidal", "self-harm", "addiction" ]
    case Pulmonology =>
      [ "lung", "pulmonary", "respiratory", "breathing", "breath", "cough",
      "asthma", "COPD", "pneumonia", "bronchitis", "chest", "wheeze",
      "shortness of breath", "dyspnea", "oxygen", "saturation", "spirometry",
      "chest X-ray", "CT scan", "tuberculosis", "emphysema", "fibrosis",
      "apnea", "smoking", "tobacco", "inhaler", "nebulizer", "sputum" ]
    case General =>
      [ "general", "overall", "health", "medical", "examination", "screening",
      "laboratory", "blood test", "urine", "vital signs", "temperature",
      "weight", "BMI", "vaccination", "medication", "prescription", "dosage" ]
  }

  /** The list lengths the scores are divided by. */
  lemma KeywordCounts()
    ensures |Keywords(Cardiology)| == 29
    ensures |Keywords(Psychology)| == 30
    ensures |Keywords(Pulmonology)| == 28
    ensures |Keywords(General)| == 17
  {
  }

  /** Keys tell specialties apart, and so do display names. */
  lemma KeyAndNameInjective(a: Specialty, b: Specialty)
    ensures Key(a) == Key(b) ==> a == b
    ensures Name(a) == Name(b) ==> a == b
  {
  }

  /** The specialty stored under a key, if any. */
  function SpecialtyOfKey(key: string): (r: Option<Specialty>)
    ensures r.Some? ==> Key(r.value) == key
    ensures r.None? ==> forall s: Specialty :: Key(s) != key
  {
    if key == Key(Cardiology) then Some(Cardiology)
    else if key == Key(Psychology) then Some(Psychology)
    else if key == Key(Pulmonology) then Some(Pulmonology)
    else if key == Key(General) then Some(General)
    else None
  }

  /** Looking up the key of a specialty finds that specialty. */
  lemma SpecialtyOfKeyInverts(s: Specialty)
    ensures SpecialtyOfKey(Key(s)) == Some(s)
  {
    KeyAndNameInjective(s, SpecialtyOfKey(Key(s)).value);
  }
}
