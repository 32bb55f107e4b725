/** The closed set of emotion categories the keyboard reacts to (kz.project.keyboard.model.Emotion). */
module EmotionModel {
  datatype Emotion = NEUTRAL | HAPPY | SAD | SURPRISED | ANGRY
}
