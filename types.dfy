/** The shared record types of the app (types/index.ts). */
module Types {
  import opened Wrappers

  datatype GoalType = LoseWeight | GainMuscle | Maintain | ImproveFitness

  datatype ActivityLevel = Sedentary | LightlyActive | ModeratelyActive | VeryActive | ExtraActive

  datatype Gender = Male | Female | OtherGender

  /** `Partial<FitnessGoals>`: the onboarding screen holds every field as optional.
      Numeric fields are JavaScript numbers, kept as reals and never computed on here. */
  datatype PartialFitnessGoals = PartialFitnessGoals(
    goalType: Option<GoalType>,
    targetWeight: Option<real>,
    currentWeight: Option<real>,
    height: Option<real>,
    age: Option<real>,
    gender: Option<Gender>,
    activityLevel: Option<ActivityLevel>,
    bodyFatPercentage: Option<real>)

  /** The empty object `{}` the onboarding screen starts from. */
  const NoGoals := PartialFitnessGoals(None, None, None, None, None, None, None, None)

  datatype Sender = User | Ai

  datatype MessageType = Text | Image

  datatype ChatMessage = ChatMessage(id: string, content: string, sender: Sender, timestamp: string, kind: MessageType)
}
